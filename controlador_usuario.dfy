/**
 * The user handlers of the administration area: listing, reading, creating, updating and
 * deleting users, keeping `usuario.vivienda` in step with `vivienda.habitantes` and `rol`
 * in step with `comunidad.administradores`.
 *
 * Two of the handlers read `req.user`, while the authentication middleware stores the
 * caller in `req.usuario`; `req.user` is therefore always undefined. It is a parameter here
 * (`peticion`), and the handler methods pass `None`, as the running system does.
 */
module ControladorUsuario {
  import opened Common
  import opened ModeloUsuario
  import opened ModeloVivienda
  import opened ModeloComunidad
  import opened Almacen
  import Arrays
  import Texto

  // ---------------------------------------------------------------------------------------
  // Read

  /**
   * `getUsuarios`' filter: the community of the query string, else, for a non-superadmin
   * `req.user` with a community, that community.
   */
  function FiltroUsuarios(peticion: Option<Actor>, consulta: Option<Id>): Option<Id>
  {
    if consulta.Some? then consulta
    else if peticion.Some? && peticion.value.rol != Superadmin && peticion.value.comunidad.Some? then peticion.value.comunidad
    else None
  }

  /** With `req.user` undefined only the query string filters: an administrator sees every user. */
  lemma FiltroSoloConsulta(consulta: Option<Id>)
    ensures FiltroUsuarios(None, consulta) == consulta
    ensures forall a: Actor :: a.rol != Superadmin && a.comunidad.Some? ==>
      FiltroUsuarios(Some(a), None) == a.comunidad && FiltroUsuarios(None, None) == None
  {
  }

  /** `getUsuarios`, as the middleware calls it. */
  method GetUsuarios(db: Db, consulta: Option<Id>) returns (ids: seq<Id>)
    ensures var f := FiltroUsuarios(None, consulta);
      forall k :: k in ids <==> k in db.usuarios && (f.None? || db.usuarios[k].comunidad == f)
    ensures forall i, j :: 0 <= i < j < |ids| ==> ids[i] != ids[j]
  {
    var f := FiltroUsuarios(None, consulta);
    ids := Enumerar(set k | k in db.usuarios && (f.None? || db.usuarios[k].comunidad == f));
  }

  /** `getUsuario`: any caller of the route reads any user; 404 for an unknown id. */
  function VerUsuario(us: map<Id, Usuario>, id: Id): (r: Result<Usuario>)
    ensures r.Ok? <==> id in us
    ensures r.Ok? ==> r.value == us[id]
    ensures r.Err? ==> r == Fail(404, UserNotFound)
  {
    if id in us then Ok(us[id]) else Fail(404, UserNotFound)
  }

  // ---------------------------------------------------------------------------------------
  // Create

  /** The body of a create request; a missing text is `""`. */
  datatype AltaUsuario = AltaUsuario(
    nombre: string,
    email: string,
    password: string,
    rol: Option<string>,
    viviendaId: Field<Id>,
    comunidadId: Field<Id>)

  /** `...(rol && { rol })`: a truthy role is stored as sent and must be one of the three, otherwise the default. */
  function RolDeAlta(rol: Option<string>): (r: Option<Rol>)
    ensures rol.None? || rol == Some("") ==> r == Some(Vecino)
    ensures rol.Some? && rol.value != "" ==> r == ParseRol(rol)
  {
    if rol.Some? && rol.value != "" then ParseRol(rol) else Some(Vecino)
  }

  /** The collections after a handler: dwellings, users, communities. */
  datatype Estado = Estado(viviendas: map<Id, Vivienda>, usuarios: map<Id, Usuario>, comunidades: map<Id, Comunidad>)

  /**
   * `crearUsuario` up to `Usuario.create`: without a `comunidadId` it reads `req.user.rol`;
   * a dwelling id must name a dwelling, whose community the user takes; the role as sent.
   */
  function DocumentoAlta(vs: map<Id, Vivienda>, peticion: Option<Actor>, alta: AltaUsuario): Result<Usuario>
  {
    if !alta.comunidadId.Given? && peticion.None? then Fail(500, TypeErrorThrown)
    else
      var comunidad :=
        if alta.comunidadId.Given? then Some(alta.comunidadId.value)
        else if peticion.value.rol != Superadmin && peticion.value.comunidad.Some? then peticion.value.comunidad
        else None;
      if alta.viviendaId.Given? && alta.viviendaId.value !in vs then Fail(404, DwellingNotFound)
      else
        var vivienda := if alta.viviendaId.Given? then Some(alta.viviendaId.value) else None;
        var comunidad' := if vivienda.Some? then Some(vs[vivienda.value].comunidad) else comunidad;
        var rol := RolDeAlta(alta.rol);
        if rol.None? then Fail(400, SchemaValidation)
        else Ok(Usuario(alta.nombre, alta.email, alta.password, rol.value, vivienda, comunidad'))
  }

  /**
   * The updates after the insert: the new user `u` joins their dwelling's resident list and,
   * as an administrator with a community, that community's list.
   */
  function Listas(e: Estado, us: map<Id, Usuario>, id: Id, u: Usuario): (r: Estado)
    ensures r.usuarios == us
    ensures r.viviendas.Keys == e.viviendas.Keys && r.comunidades.Keys == e.comunidades.Keys
    ensures forall k :: k in r.viviendas ==>
      r.viviendas[k].numeroPuerta == e.viviendas[k].numeroPuerta && r.viviendas[k].comunidad == e.viviendas[k].comunidad
    ensures forall k :: k in r.comunidades ==>
      r.comunidades[k].cif == e.comunidades[k].cif && r.comunidades[k].codigo == e.comunidades[k].codigo
  {
    var vs := if u.vivienda.Some? then MeterHabitante(e.viviendas, u.vivienda.value, id) else e.viviendas;
    var cs := if u.rol == Admin && u.comunidad.Some? then MeterAdmin(e.comunidades, u.comunidad.value, id) else e.comunidades;
    Estado(vs, us, cs)
  }

  /** `crearUsuario`: the document, the schema and hook, the e-mail index, then the lists. */
  function PlanCrearUsuario(e: Estado, peticion: Option<Actor>, alta: AltaUsuario, id: Id, hash: string -> string): Result<Estado>
  {
    var d := DocumentoAlta(e.viviendas, peticion, alta);
    if d.Err? then Err(d.failure)
    else
      var g := ModeloUsuario.Guardar(d.value, true, hash);
      if g.Err? then Err(g.failure)
      else
        var w := ModeloUsuario.Escribir(e.usuarios, id, g.value);
        if w.Err? then Err(w.failure)
        else Ok(Listas(e, w.value, id, g.value))
  }

  /** Without a `comunidadId` the handler throws (500); an unknown dwelling is 404. */
  lemma CrearUsuarioRechazos(e: Estado, alta: AltaUsuario, id: Id, hash: string -> string)
    ensures var r := PlanCrearUsuario(e, None, alta, id, hash);
      && (!alta.comunidadId.Given? ==> r == Fail(500, TypeErrorThrown))
      && (alta.comunidadId.Given? && alta.viviendaId.Given? && alta.viviendaId.value !in e.viviendas ==>
          r == Fail(404, DwellingNotFound))
  {
  }

  /**
   * A created user has the dwelling's community when a dwelling is given, the hashed
   * password, is listed in the dwelling and, as an administrator, in the community's list;
   * no other user changes.
   */
  lemma PlanCrearUsuarioCorrecto(e: Estado, alta: AltaUsuario, id: Id, hash: string -> string)
    ensures var r := PlanCrearUsuario(e, None, alta, id, hash);
      && (r.Ok? ==> id in r.value.usuarios && ModeloUsuario.EsValido(r.value.usuarios[id]))
      && (r.Ok? ==> r.value.usuarios[id].password == hash(alta.password))
      && (r.Ok? && alta.viviendaId.Given? ==> var v := alta.viviendaId.value;
          && r.value.usuarios[id].vivienda == Some(v)
          && r.value.usuarios[id].comunidad == Some(e.viviendas[v].comunidad)
          && r.value.viviendas[v].habitantes == Arrays.AddToSet(e.viviendas[v].habitantes, id))
      && (r.Ok? && !alta.viviendaId.Given? ==>
          r.value.usuarios[id].vivienda == None && r.value.usuarios[id].comunidad == Some(alta.comunidadId.value)
          && r.value.viviendas == e.viviendas)
      && (r.Ok? ==> var u := r.value.usuarios[id];
          u.rol == Admin && u.comunidad.Some? && u.comunidad.value in e.comunidades ==>
          id in r.value.comunidades[u.comunidad.value].administradores)
      && (r.Ok? ==> forall k :: k in e.usuarios && k != id ==> r.value.usuarios[k] == e.usuarios[k])
  {
    var d := DocumentoAlta(e.viviendas, None, alta);
    if d.Ok? {
      var g := ModeloUsuario.Guardar(d.value, true, hash);
      if g.Ok? {
        var w := ModeloUsuario.Escribir(e.usuarios, id, g.value);
        if w.Ok? {
          assert w.value == e.usuarios[id := g.value];
          assert PlanCrearUsuario(e, None, alta, id, hash) == Ok(Listas(e, w.value, id, g.value));
        }
      }
    }
  }

  /** A user created under a fresh id keeps residence coherent. */
  lemma CrearUsuarioCoherente(e: Estado, alta: AltaUsuario, id: Id, hash: string -> string)
    requires Coherente(e.viviendas, e.usuarios)
    requires id !in e.usuarios && forall v :: v in e.viviendas ==> id !in e.viviendas[v].habitantes
    ensures var r := PlanCrearUsuario(e, None, alta, id, hash);
      r.Ok? ==> Coherente(r.value.viviendas, r.value.usuarios)
  {
    var d := DocumentoAlta(e.viviendas, None, alta);
    if d.Ok? {
      var g := ModeloUsuario.Guardar(d.value, true, hash);
      if g.Ok? {
        AltaCoherente(e.viviendas, e.usuarios, id, g.value);
      }
    }
  }

  /** The plan changes no door number, address index or community key. */
  lemma CrearUsuarioConservaIndices(e: Estado, alta: AltaUsuario, id: Id, hash: string -> string)
    requires PuertasUnicas(e.viviendas) && EmailsUnicos(e.usuarios) && ClavesUnicas(e.comunidades)
    ensures var r := PlanCrearUsuario(e, None, alta, id, hash);
      r.Ok? ==> PuertasUnicas(r.value.viviendas) && EmailsUnicos(r.value.usuarios) && ClavesUnicas(r.value.comunidades)
  {
    var d := DocumentoAlta(e.viviendas, None, alta);
    if d.Ok? {
      var g := ModeloUsuario.Guardar(d.value, true, hash);
      if g.Ok? {
        ModeloUsuario.EscribirConservaIndice(e.usuarios, id, g.value);
        var w := ModeloUsuario.Escribir(e.usuarios, id, g.value);
        if w.Ok? {
          var r := Listas(e, w.value, id, g.value);
          MismasPuertas(e.viviendas, r.viviendas);
          MismasClaves(e.comunidades, r.comunidades);
        }
      }
    }
  }

  /** `crearUsuario` as the middleware calls it, with `req.user` undefined. */
  method CrearUsuario(db: Db, alta: AltaUsuario, id: Id, hash: string -> string) returns (r: Result<Id>)
    requires db.Valid() && id !in db.usuarios
    modifies db
    ensures db.Valid()
    ensures var p := PlanCrearUsuario(Estado(old(db.viviendas), old(db.usuarios), old(db.comunidades)), None, alta, id, hash);
      && (p.Err? ==> r == Err(p.failure) && unchanged(db))
      && (p.Ok? ==> r == Ok(id) && Estado(db.viviendas, db.usuarios, db.comunidades) == p.value)
    ensures db.votaciones == old(db.votaciones) && db.votos == old(db.votos)
  {
    var e := Estado(db.viviendas, db.usuarios, db.comunidades);
    var p := PlanCrearUsuario(e, None, alta, id, hash);
    if p.Err? {
      return Err(p.failure);
    }
    CrearUsuarioConservaIndices(e, alta, id, hash);
    db.viviendas, db.usuarios, db.comunidades := p.value.viviendas, p.value.usuarios, p.value.comunidades;
    r := Ok(id);
  }

  // ---------------------------------------------------------------------------------------
  // Update

  /**
   * The keys of an update body that reach the user: the body is copied as it stands, so
   * besides `comunidadId` and `viviendaId` the schema keys `vivienda` and `comunidad` are
   * passed on too (`Empty` is `null`). `None` or `Absent` is a key that was not sent.
   */
  datatype CambiosUsuario = CambiosUsuario(
    nombre: Option<string>,
    email: Option<string>,
    password: Option<string>,
    rol: Option<string>,
    comunidadId: Field<Id>,
    viviendaId: Field<Id>,
    vivienda: Field<Id>,
    comunidad: Field<Id>)

  /**
   * The resident-list updates, issued before the user is written: an empty dwelling id pulls
   * the user from their dwelling; a dwelling id must name a dwelling (404), the user is
   * pulled from a different previous dwelling and added to the new one.
   */
  function PasoVivienda(vs: map<Id, Vivienda>, u: Usuario, id: Id, viviendaId: Field<Id>): (r: Result<map<Id, Vivienda>>)
    ensures r.Ok? ==> r.value.Keys == vs.Keys
    ensures r.Ok? ==> forall k :: k in r.value ==>
      r.value[k].numeroPuerta == vs[k].numeroPuerta && r.value[k].comunidad == vs[k].comunidad
  {
    match viviendaId
    case Absent => Ok(vs)
    case Empty => Ok(if u.vivienda.Some? then SacarHabitante(vs, u.vivienda.value, id) else vs)
    case Given(v) =>
      if v !in vs then Fail(404, DwellingNotFound)
      else
        var previa := if u.vivienda.Some? && u.vivienda.value != v then SacarHabitante(vs, u.vivienda.value, id) else vs;
        Ok(MeterHabitante(previa, v, id))
  }

  /** A reference key of the body written as it stands: an id, `null`, or the stored value when not sent. */
  function Referencia(f: Field<Id>, actual: Option<Id>): (r: Option<Id>)
    ensures f.Given? ==> r == Some(f.value)
    ensures f.Empty? ==> r == None
    ensures f.Absent? ==> r == actual
  {
    match f
    case Absent => actual
    case Empty => None
    case Given(x) => Some(x)
  }

  /**
   * The community the update writes before the dwelling step: a sent `comunidadId` (`''`
   * read as `null`) replaces a sent `comunidad` key, which replaces the stored one.
   */
  function ComunidadEnviada(u: Usuario, c: CambiosUsuario): Option<Id>
  {
    if c.comunidadId.Absent? then Referencia(c.comunidad, u.comunidad) else Referencia(c.comunidadId, None)
  }

  /**
   * The document the update sets, before validation: the community as sent, the dwelling
   * as sent in the `vivienda` key, then `viviendaId`, whose dwelling and community win; the
   * password key is dropped.
   */
  function Datos(vs: map<Id, Vivienda>, u: Usuario, c: CambiosUsuario): Usuario
    requires c.viviendaId.Given? ==> c.viviendaId.value in vs
  {
    match c.viviendaId
    case Absent => u.(vivienda := Referencia(c.vivienda, u.vivienda), comunidad := ComunidadEnviada(u, c))
    case Empty => u.(vivienda := None, comunidad := ComunidadEnviada(u, c))
    case Given(v) => u.(vivienda := Some(v), comunidad := Some(vs[v].comunidad))
  }

  /**
   * `const comunidadId = datosActualizacion.comunidad || usuario.comunidad`, read before the
   * dwelling step: the community of the role synchronisation.
   */
  function ComunidadSincronizada(u: Usuario, c: CambiosUsuario): (r: Option<Id>)
    ensures c.comunidadId.Given? ==> r == Some(c.comunidadId.value)
    ensures c.comunidadId.Absent? && c.comunidad.Given? ==> r == Some(c.comunidad.value)
    ensures !c.comunidadId.Given? && !(c.comunidadId.Absent? && c.comunidad.Given?) ==> r == u.comunidad
  {
    var enviada := ComunidadEnviada(u, c);
    if enviada.Some? then enviada else u.comunidad
  }

  /** The update validators and setters on the sent keys: name, address and role. */
  function Validar(d: Usuario, c: CambiosUsuario): Result<Usuario>
  {
    var rol := if c.rol.Some? then ParseRol(c.rol) else Some(d.rol);
    if rol.None? then Fail(400, SchemaValidation)
    else if c.nombre.Some? && Texto.Trim(c.nombre.value) == "" then Fail(400, SchemaValidation)
    else if c.email.Some? && !CoincideEmail(NormalizarEmail(c.email.value)) then Fail(400, SchemaValidation)
    else Ok(d.(nombre := if c.nombre.Some? then Texto.Trim(c.nombre.value) else d.nombre,
               email := if c.email.Some? then NormalizarEmail(c.email.value) else d.email,
               rol := rol.value))
  }

  /**
   * The administrator-list synchronisation after the write. `rolNuevo` is the sent role,
   * undefined when not sent, so an omitted role counts as a change; `cid` is the sent
   * community, else the stored one.
   */
  function SincronizarRol(cs: map<Id, Comunidad>, anterior: Rol, rolNuevo: Option<string>, cid: Option<Id>, id: Id): (r: map<Id, Comunidad>)
    ensures r.Keys == cs.Keys
    ensures forall k :: k in r ==> r[k].cif == cs[k].cif && r[k].codigo == cs[k].codigo
  {
    var cambio := rolNuevo.None? || ParseRol(rolNuevo) != Some(anterior);
    if cambio && cid.Some? then
      if rolNuevo == Some("admin") then MeterAdmin(cs, cid.value, id)
      else if anterior == Admin then SacarAdmin(cs, cid.value, id)
      else cs
    else cs
  }

  /** What a handler answers, and the collections after it, which a late failure leaves partly updated. */
  datatype Salida = Salida(r: Result<Id>, estado: Estado)

  /**
   * `actualizarUsuario`: 404 for an unknown user; the resident-list updates; the write of
   * the user (validators, e-mail index); the administrator-list synchronisation.
   */
  function PlanActualizarUsuario(e: Estado, id: Id, c: CambiosUsuario): Salida
  {
    if id !in e.usuarios then Salida(Fail(404, UserNotFound), e)
    else
      var u := e.usuarios[id];
      var pv := PasoVivienda(e.viviendas, u, id, c.viviendaId);
      if pv.Err? then Salida(Err(pv.failure), e)
      else
        var e' := e.(viviendas := pv.value);
        var v := Validar(Datos(e.viviendas, u, c), c);
        if v.Err? then Salida(Err(v.failure), e')
        else
          var w := ModeloUsuario.Escribir(e.usuarios, id, v.value);
          if w.Err? then Salida(Err(w.failure), e')
          else
            var cid := ComunidadSincronizada(u, c);
            Salida(Ok(id), Estado(pv.value, w.value, SincronizarRol(e.comunidades, u.rol, c.rol, cid, id)))
  }

  /**
   * The update's outcome: 404 for an unknown user or dwelling with nothing changed; an
   * accepted update never touches the password, reads an empty `comunidadId` as no
   * community, and leaves the user in exactly the dwelling sent, with its community; without
   * `viviendaId` a sent `vivienda` key is written as it stands.
   */
  lemma PlanActualizarUsuarioCorrecto(e: Estado, id: Id, c: CambiosUsuario)
    ensures var s := PlanActualizarUsuario(e, id, c);
      && (id !in e.usuarios ==> s == Salida(Fail(404, UserNotFound), e))
      && (id in e.usuarios && c.viviendaId.Given? && c.viviendaId.value !in e.viviendas ==>
          s == Salida(Fail(404, DwellingNotFound), e))
      && (s.r.Ok? ==> id in e.usuarios && s.estado.usuarios.Keys == e.usuarios.Keys)
      && (s.r.Ok? ==> s.estado.usuarios[id].password == e.usuarios[id].password)
      && (s.r.Ok? && c.comunidadId.Empty? && !c.viviendaId.Given? ==> s.estado.usuarios[id].comunidad == None)
      && (s.r.Ok? && c.comunidadId.Absent? && c.comunidad.Given? && !c.viviendaId.Given? ==>
          s.estado.usuarios[id].comunidad == Some(c.comunidad.value))
      && (s.r.Ok? && c.viviendaId.Absent? ==>
          s.estado.usuarios[id].vivienda == Referencia(c.vivienda, e.usuarios[id].vivienda)
          && s.estado.viviendas == e.viviendas)
      && (s.r.Ok? && c.viviendaId.Empty? ==> s.estado.usuarios[id].vivienda == None)
      && (s.r.Ok? && c.viviendaId.Empty? && e.usuarios[id].vivienda.Some? && e.usuarios[id].vivienda.value in e.viviendas ==>
          id !in s.estado.viviendas[e.usuarios[id].vivienda.value].habitantes)
      && (s.r.Ok? && c.viviendaId.Given? ==> var v := c.viviendaId.value;
          && s.estado.usuarios[id].vivienda == Some(v)
          && s.estado.usuarios[id].comunidad == Some(e.viviendas[v].comunidad)
          && id in s.estado.viviendas[v].habitantes)
      && (s.r.Ok? && c.viviendaId.Given? && e.usuarios[id].vivienda.Some? && e.usuarios[id].vivienda.value in e.viviendas
          && e.usuarios[id].vivienda.value != c.viviendaId.value ==>
          id !in s.estado.viviendas[e.usuarios[id].vivienda.value].habitantes)
      && (s.r.Ok? ==> forall k :: k in e.usuarios && k != id ==> s.estado.usuarios[k] == e.usuarios[k])
  {
  }

  /**
   * Role synchronisation as written: sending `admin` adds the user to the list of the sent
   * (else stored) community, and sending another role removes a current administrator.
   */
  lemma RolSincronizado(e: Estado, id: Id, c: CambiosUsuario, k: Id)
    requires id in e.usuarios && k in e.comunidades
    requires ComunidadSincronizada(e.usuarios[id], c) == Some(k)
    ensures var s := PlanActualizarUsuario(e, id, c);
      && (s.r.Ok? && c.rol == Some("admin") && e.usuarios[id].rol != Admin ==>
          s.estado.usuarios[id].rol == Admin && id in s.estado.comunidades[k].administradores)
      && (s.r.Ok? && c.rol.Some? && c.rol != Some("admin") && e.usuarios[id].rol == Admin ==>
          s.estado.usuarios[id].rol != Admin && id !in s.estado.comunidades[k].administradores)
  {
  }

  /**
   * An update that omits `rol` counts as a role change: a current administrator is pulled
   * from the community's list while keeping the role `admin`.
   */
  lemma RolOmitido(e: Estado, id: Id, c: CambiosUsuario, k: Id)
    requires id in e.usuarios && e.usuarios[id].rol == Admin && c.rol.None? && k in e.comunidades
    requires ComunidadSincronizada(e.usuarios[id], c) == Some(k)
    ensures var s := PlanActualizarUsuario(e, id, c);
      s.r.Ok? ==> s.estado.usuarios[id].rol == Admin && id !in s.estado.comunidades[k].administradores
  {
  }

  /**
   * An accepted update keeps residence coherent when the dwelling goes through `viviendaId`
   * or is not sent at all; a raw `vivienda` key on its own is written unchecked (see
   * `ViviendaCruda`).
   */
  lemma ActualizarUsuarioCoherente(e: Estado, id: Id, c: CambiosUsuario)
    requires Coherente(e.viviendas, e.usuarios)
    ensures var s := PlanActualizarUsuario(e, id, c);
      s.r.Ok? && (c.vivienda.Absent? || !c.viviendaId.Absent?) ==> Coherente(s.estado.viviendas, s.estado.usuarios)
  {
    var s := PlanActualizarUsuario(e, id, c);
    if s.r.Ok? && (c.vivienda.Absent? || !c.viviendaId.Absent?) {
      var u := e.usuarios[id];
      var pv := PasoVivienda(e.viviendas, u, id, c.viviendaId);
      var d := Validar(Datos(e.viviendas, u, c), c);
      assert s.estado.viviendas == pv.value && s.estado.usuarios == e.usuarios[id := d.value];
      var (vs, us) := (pv.value, e.usuarios[id := d.value]);
      forall x, v | x in us && v in vs ensures us[x].vivienda == Some(v) <==> x in vs[v].habitantes {
        if x != id {
          assert us[x] == e.usuarios[x];
          if c.viviendaId.Given? && v == c.viviendaId.value {
            assert vs[v].habitantes == Arrays.AddToSet(e.viviendas[v].habitantes, id);
          } else if !c.viviendaId.Absent? && u.vivienda == Some(v) {
            assert vs[v].habitantes == Arrays.Pull(e.viviendas[v].habitantes, id);
          }
        }
      }
    }
  }

  /**
   * A raw `vivienda` key without `viviendaId` is written as it stands: a user with no
   * dwelling names dwelling `v`, whose resident list does not change, and residence that
   * was coherent no longer is.
   */
  lemma ViviendaCruda(e: Estado, id: Id, c: CambiosUsuario, v: Id)
    requires Coherente(e.viviendas, e.usuarios) && EmailsUnicos(e.usuarios)
    requires id in e.usuarios && e.usuarios[id].vivienda.None? && v in e.viviendas
    requires c == CambiosUsuario(None, None, None, None, Absent, Absent, Given(v), Absent)
    ensures var s := PlanActualizarUsuario(e, id, c);
      && s.r == Ok(id)
      && s.estado.usuarios[id].vivienda == Some(v)
      && id !in s.estado.viviendas[v].habitantes
      && !Coherente(s.estado.viviendas, s.estado.usuarios)
  {
    var u := e.usuarios[id];
    assert id !in e.viviendas[v].habitantes;
    var d := Datos(e.viviendas, u, c);
    assert Validar(d, c) == Ok(d);
    assert !EmailOcupado(e.usuarios, d.email, Some(id));
  }

  /**
   * The resident lists are updated before the user is validated: a new dwelling together
   * with an address the validator refuses answers 400, yet the dwelling already lists the
   * user, who does not name it.
   */
  lemma FalloTardio(e: Estado, id: Id, c: CambiosUsuario)
    requires Coherente(e.viviendas, e.usuarios)
    requires id in e.usuarios && e.usuarios[id].vivienda.None?
    requires c.viviendaId.Given? && c.viviendaId.value in e.viviendas
    requires c.email.Some? && !CoincideEmail(NormalizarEmail(c.email.value))
    requires c.rol.None? || ParseRol(c.rol).Some?
    ensures var s := PlanActualizarUsuario(e, id, c);
      && s.r == Fail(400, SchemaValidation)
      && s.estado.usuarios == e.usuarios
      && c.viviendaId.value in s.estado.viviendas
      && id in s.estado.viviendas[c.viviendaId.value].habitantes
      && !Coherente(s.estado.viviendas, s.estado.usuarios)
  {
    var v := c.viviendaId.value;
    var s := PlanActualizarUsuario(e, id, c);
    assert s.estado.viviendas[v].habitantes == Arrays.AddToSet(e.viviendas[v].habitantes, id);
    assert e.usuarios[id].vivienda != Some(v);
  }

  /** The update changes no door number or community key, and its write keeps the e-mail index. */
  lemma ActualizarUsuarioConservaIndices(e: Estado, id: Id, c: CambiosUsuario)
    requires PuertasUnicas(e.viviendas) && EmailsUnicos(e.usuarios) && ClavesUnicas(e.comunidades)
    ensures var s := PlanActualizarUsuario(e, id, c);
      PuertasUnicas(s.estado.viviendas) && EmailsUnicos(s.estado.usuarios) && ClavesUnicas(s.estado.comunidades)
  {
    if id in e.usuarios {
      var u := e.usuarios[id];
      var pv := PasoVivienda(e.viviendas, u, id, c.viviendaId);
      if pv.Ok? {
        MismasPuertas(e.viviendas, pv.value);
        var v := Validar(Datos(e.viviendas, u, c), c);
        if v.Ok? {
          ModeloUsuario.EscribirConservaIndice(e.usuarios, id, v.value);
          var cid := ComunidadSincronizada(u, c);
          MismasClaves(e.comunidades, SincronizarRol(e.comunidades, u.rol, c.rol, cid, id));
        }
      }
    }
  }

  method ActualizarUsuario(db: Db, id: Id, c: CambiosUsuario) returns (r: Result<Id>)
    requires db.Valid()
    modifies db
    ensures db.Valid()
    ensures var s := PlanActualizarUsuario(Estado(old(db.viviendas), old(db.usuarios), old(db.comunidades)), id, c);
      r == s.r && Estado(db.viviendas, db.usuarios, db.comunidades) == s.estado
    ensures db.votaciones == old(db.votaciones) && db.votos == old(db.votos)
  {
    var e := Estado(db.viviendas, db.usuarios, db.comunidades);
    var s := PlanActualizarUsuario(e, id, c);
    ActualizarUsuarioConservaIndices(e, id, c);
    db.viviendas, db.usuarios, db.comunidades := s.estado.viviendas, s.estado.usuarios, s.estado.comunidades;
    r := s.r;
  }

  // ---------------------------------------------------------------------------------------
  // Delete

  /**
   * `eliminarUsuario`: 404 for an unknown user; the user leaves their dwelling's resident
   * list and is deleted. Administrator lists are not touched.
   */
  function PlanEliminarUsuario(e: Estado, id: Id): Result<Estado>
  {
    if id !in e.usuarios then Fail(404, UserNotFound)
    else
      var u := e.usuarios[id];
      var vs := if u.vivienda.Some? then SacarHabitante(e.viviendas, u.vivienda.value, id) else e.viviendas;
      Ok(Estado(vs, e.usuarios - {id}, e.comunidades))
  }

  /** Deleting a user keeps residence coherent, and no dwelling keeps listing them. */
  lemma EliminarUsuarioCoherente(e: Estado, id: Id)
    requires Coherente(e.viviendas, e.usuarios)
    ensures var r := PlanEliminarUsuario(e, id);
      r.Ok? ==> (Coherente(r.value.viviendas, r.value.usuarios) &&
                 forall v :: v in r.value.viviendas ==> id !in r.value.viviendas[v].habitantes)
  {
    var r := PlanEliminarUsuario(e, id);
    if r.Ok? {
      var u := e.usuarios[id];
      forall v | v in r.value.viviendas ensures id !in r.value.viviendas[v].habitantes {
        if u.vivienda == Some(v) {
          assert r.value.viviendas[v].habitantes == Arrays.Pull(e.viviendas[v].habitantes, id);
        } else {
          assert r.value.viviendas[v] == e.viviendas[v];
        }
      }
      forall x, v | x in r.value.usuarios && v in r.value.viviendas
        ensures r.value.usuarios[x].vivienda == Some(v) <==> x in r.value.viviendas[v].habitantes
      {
        if u.vivienda == Some(v) {
          assert r.value.viviendas[v].habitantes == Arrays.Pull(e.viviendas[v].habitantes, id);
        }
      }
    }
  }

  method EliminarUsuario(db: Db, id: Id) returns (r: Result<Id>)
    requires db.Valid()
    modifies db
    ensures db.Valid()
    ensures var p := PlanEliminarUsuario(Estado(old(db.viviendas), old(db.usuarios), old(db.comunidades)), id);
      && (p.Err? ==> r == Err(p.failure) && unchanged(db))
      && (p.Ok? ==> r == Ok(id) && Estado(db.viviendas, db.usuarios, db.comunidades) == p.value)
    ensures db.votaciones == old(db.votaciones) && db.votos == old(db.votos)
  {
    var e := Estado(db.viviendas, db.usuarios, db.comunidades);
    var p := PlanEliminarUsuario(e, id);
    if p.Err? {
      return Err(p.failure);
    }
    MismasPuertas(db.viviendas, p.value.viviendas);
    MismosEmails(db.usuarios, p.value.usuarios);
    db.viviendas, db.usuarios := p.value.viviendas, p.value.usuarios;
    r := Ok(id);
  }
}
