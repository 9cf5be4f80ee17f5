/**
 * The community handlers: reading one community, creating it with its administrators,
 * updating it (the CIF guard and the superadmin's administrator diff), deleting it, and a
 * resident joining one by its code.
 */
module ControladorComunidad {
  import opened Common
  import opened ModeloUsuario
  import opened ModeloComunidad
  import opened Almacen
  import Arrays
  import Texto

  // ---------------------------------------------------------------------------------------
  // Users touched by `Usuario.updateMany`

  /** `updateMany({ _id: { $in: ids } }, { comunidad: cid, rol: 'admin' })`; ids naming no user match nothing. */
  function Nombrar(us: map<Id, Usuario>, ids: seq<Id>, cid: Id): (r: map<Id, Usuario>)
    ensures r.Keys == us.Keys
    ensures forall k :: k in r && k in ids ==> r[k] == us[k].(comunidad := Some(cid), rol := Admin)
    ensures forall k :: k in r && k !in ids ==> r[k] == us[k]
  {
    map k | k in us :: if k in ids then us[k].(comunidad := Some(cid), rol := Admin) else us[k]
  }

  /** `updateMany({ _id: { $in: ids } }, { $unset: { comunidad: '' }, rol: 'vecino' })`. */
  function Destituir(us: map<Id, Usuario>, ids: seq<Id>): (r: map<Id, Usuario>)
    ensures r.Keys == us.Keys
    ensures forall k :: k in r && k in ids ==> r[k] == us[k].(comunidad := None, rol := Vecino)
    ensures forall k :: k in r && k !in ids ==> r[k] == us[k]
  {
    map k | k in us :: if k in ids then us[k].(comunidad := None, rol := Vecino) else us[k]
  }

  /** `updateMany({ comunidad: cid }, { $unset: { comunidad: '' } })`. */
  function SinComunidad(us: map<Id, Usuario>, cid: Id): (r: map<Id, Usuario>)
    ensures r.Keys == us.Keys
    ensures forall k :: k in r && us[k].comunidad == Some(cid) ==> r[k] == us[k].(comunidad := None)
    ensures forall k :: k in r && us[k].comunidad != Some(cid) ==> r[k] == us[k]
  {
    map k | k in us :: if us[k].comunidad == Some(cid) then us[k].(comunidad := None) else us[k]
  }

  // ---------------------------------------------------------------------------------------
  // Read

  /** `getComunidad`: 404 for an unknown id; 403 unless a superadmin or a member of it. */
  function VerComunidad(cs: map<Id, Comunidad>, actor: Actor, id: Id): (r: Result<Comunidad>)
    ensures r.Ok? <==> id in cs && (actor.rol == Superadmin || actor.comunidad == Some(id))
    ensures r.Ok? ==> r.value == cs[id]
    ensures id !in cs ==> r == Fail(404, CommunityNotFound)
    ensures id in cs && r.Err? ==> r == Fail(403, Forbidden)
  {
    if id !in cs then Fail(404, CommunityNotFound)
    else if actor.rol != Superadmin && actor.comunidad != Some(id) then Fail(403, Forbidden)
    else Ok(cs[id])
  }

  /**
   * `getComunidad` as written: membership is tested by comparing
   * `req.usuario.comunidad.toString()` with the community's id text, and the caller's
   * community is a populated document, so only a superadmin is ever let through.
   */
  function VerComunidadTalCual(cs: map<Id, Comunidad>, actor: Actor, id: Id): (r: Result<Comunidad>)
    ensures r.Ok? <==> id in cs && actor.rol == Superadmin
    ensures r.Ok? ==> r.value == cs[id]
    ensures id !in cs ==> r == Fail(404, CommunityNotFound)
    ensures id in cs && r.Err? ==> r == Fail(403, Forbidden)
  {
    if id !in cs then Fail(404, CommunityNotFound)
    else if actor.rol != Superadmin && (actor.comunidad.None? || ComunidadComoTexto(actor) != Hex(id)) then
      Fail(403, Forbidden)
    else Ok(cs[id])
  }

  /** As written, a resident is refused their own community, which the corrected read returns. */
  lemma MiembroSinAcceso(cs: map<Id, Comunidad>, actor: Actor, id: Id)
    requires id in cs && actor.rol != Superadmin && actor.comunidad == Some(id)
    ensures VerComunidadTalCual(cs, actor, id) == Fail(403, Forbidden)
    ensures VerComunidad(cs, actor, id) == Ok(cs[id])
  {
  }

  // ---------------------------------------------------------------------------------------
  // Create

  /** The body of a create request; a missing text is `""`, a missing list `None`. */
  datatype AltaComunidad = AltaComunidad(nombre: string, direccion: string, cif: string, administradores: Option<seq<Id>>)

  /**
   * `crearComunidad`: the CIF must be free (the lookup's filter goes through the trim setter); the community is saved with the generated
   * `codigo` and the listed administrators (default none); the listed users become its
   * administrators.
   */
  function PlanCrearComunidad(cs: map<Id, Comunidad>, us: map<Id, Usuario>, alta: AltaComunidad, id: Id, codigo: string)
    : Result<(map<Id, Comunidad>, map<Id, Usuario>)>
  {
    if CifOcupado(cs, Texto.Trim(alta.cif), None) then Fail(400, DuplicateCif)
    else
      var admins := if alta.administradores.Some? then alta.administradores.value else [];
      var g := ModeloComunidad.Guardar(Comunidad(alta.nombre, alta.direccion, alta.cif, codigo, admins));
      if g.Err? then Err(g.failure)
      else
        var w := ModeloComunidad.Escribir(cs, id, g.value);
        if w.Err? then Err(w.failure)
        else Ok((w.value, if |admins| > 0 then Nombrar(us, admins, id) else us))
  }

  /**
   * A CIF already stored is refused (400); a created community is valid, carries the listed
   * administrators and trimmed keys; each listed user becomes an `admin` of it, and nothing
   * else changes.
   */
  lemma PlanCrearComunidadCorrecto(cs: map<Id, Comunidad>, us: map<Id, Usuario>, alta: AltaComunidad, id: Id, codigo: string)
    requires id !in cs
    ensures var r := PlanCrearComunidad(cs, us, alta, id, codigo);
      var admins := if alta.administradores.Some? then alta.administradores.value else [];
      && (CifOcupado(cs, Texto.Trim(alta.cif), None) ==> r == Fail(400, DuplicateCif))
      && (r.Ok? ==> !CifOcupado(cs, Texto.Trim(alta.cif), None) && r.value.0.Keys == cs.Keys + {id})
      && (r.Ok? ==> ModeloComunidad.EsValida(r.value.0[id]) && r.value.0[id].administradores == admins)
      && (r.Ok? ==> r.value.0[id].cif == Texto.Trim(alta.cif) && r.value.0[id].codigo == Texto.Trim(codigo))
      && (r.Ok? ==> forall k :: k in cs ==> r.value.0[k] == cs[k])
      && (r.Ok? ==> r.value.1.Keys == us.Keys)
      && (r.Ok? ==> forall k :: k in us && k in admins ==>
            r.value.1[k].comunidad == Some(id) && r.value.1[k].rol == Admin)
      && (r.Ok? ==> forall k :: k in us && k !in admins ==> r.value.1[k] == us[k])
  {
    var admins := if alta.administradores.Some? then alta.administradores.value else [];
    if !CifOcupado(cs, Texto.Trim(alta.cif), None) {
      var g := ModeloComunidad.Guardar(Comunidad(alta.nombre, alta.direccion, alta.cif, codigo, admins));
      if g.Ok? && ModeloComunidad.Escribir(cs, id, g.value).Ok? {
        assert PlanCrearComunidad(cs, us, alta, id, codigo)
          == Ok((cs[id := g.value], if |admins| > 0 then Nombrar(us, admins, id) else us));
      }
    }
  }

  /**
   * Creation keeps the administrator lists coherent when no listed user is listed by another
   * community; otherwise that community keeps listing a user who now belongs elsewhere.
   */
  lemma CrearComunidadAdmins(cs: map<Id, Comunidad>, us: map<Id, Usuario>, alta: AltaComunidad, id: Id, codigo: string)
    requires id !in cs && AdminsCoherentes(cs, us)
    requires alta.administradores.Some? ==>
      forall c, u :: c in cs && u in cs[c].administradores ==> u !in alta.administradores.value
    ensures var r := PlanCrearComunidad(cs, us, alta, id, codigo);
      r.Ok? ==> AdminsCoherentes(r.value.0, r.value.1)
  {
    var r := PlanCrearComunidad(cs, us, alta, id, codigo);
    if r.Ok? {
      PlanCrearComunidadCorrecto(cs, us, alta, id, codigo);
      var admins := if alta.administradores.Some? then alta.administradores.value else [];
      var (cs', us') := r.value;
      forall c, u | c in cs' && u in us' && u in cs'[c].administradores
        ensures us'[u].rol == Admin && us'[u].comunidad == Some(c)
      {
        if c != id {
          assert u !in admins;
        }
      }
    }
  }

  /** An administrator of another community named in a new one stays in the old list too. */
  lemma CrearComunidadListaAntigua(cs: map<Id, Comunidad>, us: map<Id, Usuario>, alta: AltaComunidad, id: Id, codigo: string, c: Id, u: Id)
    requires id !in cs && c in cs && u in us && u in cs[c].administradores
    requires alta.administradores == Some([u])
    ensures var r := PlanCrearComunidad(cs, us, alta, id, codigo);
      r.Ok? ==> !AdminsCoherentes(r.value.0, r.value.1)
  {
    var r := PlanCrearComunidad(cs, us, alta, id, codigo);
    if r.Ok? {
      PlanCrearComunidadCorrecto(cs, us, alta, id, codigo);
      assert r.value.0[c] == cs[c] && r.value.1[u].comunidad == Some(id);
    }
  }

  /** `crearComunidad` on the store; `codigo` is the generated random code. */
  method CrearComunidad(db: Db, alta: AltaComunidad, id: Id, codigo: string) returns (r: Result<Id>)
    requires db.Valid() && id !in db.comunidades
    modifies db
    ensures db.Valid()
    ensures var p := PlanCrearComunidad(old(db.comunidades), old(db.usuarios), alta, id, codigo);
      && (p.Err? ==> r == Err(p.failure) && unchanged(db))
      && (p.Ok? ==> r == Ok(id) && db.comunidades == p.value.0 && db.usuarios == p.value.1)
    ensures db.votaciones == old(db.votaciones) && db.votos == old(db.votos) && db.viviendas == old(db.viviendas)
  {
    var p := PlanCrearComunidad(db.comunidades, db.usuarios, alta, id, codigo);
    if p.Err? {
      return Err(p.failure);
    }
    PlanCrearComunidadCorrecto(db.comunidades, db.usuarios, alta, id, codigo);
    var admins := if alta.administradores.Some? then alta.administradores.value else [];
    var g := ModeloComunidad.Guardar(Comunidad(alta.nombre, alta.direccion, alta.cif, codigo, admins));
    ModeloComunidad.EscribirConservaIndices(db.comunidades, id, g.value);
    MismosEmails(db.usuarios, p.value.1);
    db.comunidades, db.usuarios := p.value.0, p.value.1;
    r := Ok(id);
  }

  // ---------------------------------------------------------------------------------------
  // Update

  /** The keys of an update body the handler reads; `None` is a key not sent. */
  datatype CambiosComunidad = CambiosComunidad(
    nombre: Option<string>,
    direccion: Option<string>,
    cif: Option<string>,
    codigo: Option<string>,
    administradores: Option<seq<Id>>)

  /** The handler's permission: a superadmin, or an `admin` whose community is this one. */
  predicate PuedeActualizar(actor: Actor, id: Id)
  {
    actor.rol == Superadmin || (actor.rol == Admin && actor.comunidad == Some(id))
  }

  /**
   * The permission as written: the caller's community is compared by `toString()`, and it is
   * a populated document, so the test lets only a superadmin through.
   */
  function PuedeActualizarTalCual(actor: Actor, id: Id): (b: bool)
    ensures b <==> actor.rol == Superadmin
  {
    actor.rol == Superadmin ||
      !(actor.comunidad.None? || ComunidadComoTexto(actor) != Hex(id) || actor.rol != Admin)
  }

  /** A sent text after the trim setter; `required` refuses it when it comes out empty. */
  function Enviado(sent: Option<string>, actual: string): string
  {
    if sent.Some? then Texto.Trim(sent.value) else actual
  }

  /** `findByIdAndUpdate(id, body, { runValidators: true })`: setters and validators on the sent keys. */
  function AplicarCambios(c: Comunidad, cambios: CambiosComunidad): (r: Result<Comunidad>)
    ensures r.Ok? && ModeloComunidad.EsValida(c) ==> ModeloComunidad.EsValida(r.value)
    ensures r.Err? ==> r == Fail(400, SchemaValidation)
  {
    var n := Comunidad(Enviado(cambios.nombre, c.nombre), Enviado(cambios.direccion, c.direccion),
      Enviado(cambios.cif, c.cif), Enviado(cambios.codigo, c.codigo),
      if cambios.administradores.Some? then cambios.administradores.value else c.administradores);
    if n.nombre == [] || n.direccion == [] || n.cif == [] || n.codigo == [] then Fail(400, SchemaValidation)
    else
      Texto.TrimIdempotent(n.nombre); Texto.TrimIdempotent(n.direccion);
      Texto.TrimIdempotent(n.cif); Texto.TrimIdempotent(n.codigo);
      Texto.TrimIdempotent(c.nombre); Texto.TrimIdempotent(c.direccion);
      Texto.TrimIdempotent(c.cif); Texto.TrimIdempotent(c.codigo);
      Ok(n)
  }

  /** What the update answers, and the collections after it; the user updates come first. */
  datatype Salida = Salida(r: Result<Id>, usuarios: map<Id, Usuario>, comunidades: map<Id, Comunidad>)

  /** The users after the administrator diff: the added ones join, the dropped ones leave. */
  function Diferencia(us: map<Id, Usuario>, actuales: seq<Id>, pedidos: seq<Id>, id: Id): map<Id, Usuario>
  {
    Destituir(Nombrar(us, Arrays.Minus(pedidos, actuales), id), Arrays.Minus(actuales, pedidos))
  }

  /**
   * `actualizarComunidad`, with the permission of `PuedeActualizar`: 404; 403; a CIF sent,
   * different from the stored one and (once trimmed) held by another community is 400; a superadmin's `administradores` is diffed against the stored list and the users
   * updated, anyone else's is dropped; then the write.
   */
  function PlanActualizarComunidad(cs: map<Id, Comunidad>, us: map<Id, Usuario>, actor: Actor, id: Id, cambios: CambiosComunidad): Salida
  {
    if id !in cs then Salida(Fail(404, CommunityNotFound), us, cs)
    else if !PuedeActualizar(actor, id) then Salida(Fail(403, Forbidden), us, cs)
    else if cambios.cif.Some? && cambios.cif.value != "" && cambios.cif.value != cs[id].cif
      && CifOcupado(cs, Texto.Trim(cambios.cif.value), Some(id)) then Salida(Fail(400, DuplicateCif), us, cs)
    else
      var diff := cambios.administradores.Some? && actor.rol == Superadmin;
      var us' := if diff then Diferencia(us, cs[id].administradores, cambios.administradores.value, id) else us;
      var cambios' := if diff then cambios else cambios.(administradores := None);
      var a := AplicarCambios(cs[id], cambios');
      if a.Err? then Salida(Err(a.failure), us', cs)
      else
        var w := ModeloComunidad.Escribir(cs, id, a.value);
        if w.Err? then Salida(Err(w.failure), us', cs)
        else Salida(Ok(id), us', w.value)
  }

  /**
   * The guards: 404 exactly for an unknown id, 403 exactly for a caller who is neither a
   * superadmin nor an `admin` of the community, 400 for a CIF another community holds; a
   * refused update changes nothing, and a caller who is not a superadmin never changes a user
   * or the administrator list.
   */
  lemma PlanActualizarComunidadGuardas(cs: map<Id, Comunidad>, us: map<Id, Usuario>, actor: Actor, id: Id, cambios: CambiosComunidad)
    ensures var s := PlanActualizarComunidad(cs, us, actor, id, cambios);
      && (s.r == Fail(404, CommunityNotFound) <==> id !in cs)
      && (s.r.Err? && s.r.failure.status == 403 <==> id in cs && !PuedeActualizar(actor, id))
      && (id in cs && PuedeActualizar(actor, id) && cambios.cif.Some? && cambios.cif.value != ""
          && cambios.cif.value != cs[id].cif && CifOcupado(cs, Texto.Trim(cambios.cif.value), Some(id)) ==>
          s == Salida(Fail(400, DuplicateCif), us, cs))
      && (s.r.Err? && s.r.failure.status != 400 ==> s.usuarios == us && s.comunidades == cs)
      && (s.r.Err? ==> s.comunidades == cs)
      && (actor.rol != Superadmin ==> s.usuarios == us)
      && (actor.rol != Superadmin && s.r.Ok? ==> s.comunidades[id].administradores == cs[id].administradores)
  {
    if id in cs && PuedeActualizar(actor, id) && !(cambios.cif.Some? && cambios.cif.value != ""
      && cambios.cif.value != cs[id].cif && CifOcupado(cs, Texto.Trim(cambios.cif.value), Some(id)))
    {
      var s := PlanActualizarComunidad(cs, us, actor, id, cambios);
      var diff := cambios.administradores.Some? && actor.rol == Superadmin;
      var us' := if diff then Diferencia(us, cs[id].administradores, cambios.administradores.value, id) else us;
      var cambios' := if diff then cambios else cambios.(administradores := None);
      var a := AplicarCambios(cs[id], cambios');
      if a.Err? {
        assert s == Salida(Fail(400, SchemaValidation), us', cs);
      } else {
        var w := ModeloComunidad.Escribir(cs, id, a.value);
        if w.Err? {
          assert s == Salida(Fail(400, DuplicateKey), us', cs);
        } else {
          assert s == Salida(Ok(id), us', cs[id := a.value]);
          assert actor.rol != Superadmin ==> a.value.administradores == cs[id].administradores;
        }
      }
    }
  }

  /**
   * `actualizarComunidad` as written: the permission test of `PuedeActualizarTalCual`
   * refuses every caller but a superadmin, who then gets what the corrected update does.
   */
  function PlanActualizarComunidadTalCual(cs: map<Id, Comunidad>, us: map<Id, Usuario>, actor: Actor, id: Id, cambios: CambiosComunidad): (s: Salida)
    ensures id in cs && actor.rol != Superadmin ==> s == Salida(Fail(403, Forbidden), us, cs)
    ensures id !in cs || actor.rol == Superadmin ==> s == PlanActualizarComunidad(cs, us, actor, id, cambios)
  {
    if id in cs && !PuedeActualizarTalCual(actor, id) then Salida(Fail(403, Forbidden), us, cs)
    else PlanActualizarComunidad(cs, us, actor, id, cambios)
  }

  /**
   * As written, the administrator of a community cannot update it; the corrected update lets
   * them past the permission test.
   */
  lemma AdminSinPermiso(cs: map<Id, Comunidad>, us: map<Id, Usuario>, actor: Actor, id: Id, cambios: CambiosComunidad)
    requires id in cs && actor.rol == Admin && actor.comunidad == Some(id)
    ensures PlanActualizarComunidadTalCual(cs, us, actor, id, cambios).r == Fail(403, Forbidden)
    ensures PlanActualizarComunidad(cs, us, actor, id, cambios).r != Fail(403, Forbidden)
  {
    PlanActualizarComunidadGuardas(cs, us, actor, id, cambios);
  }

  /**
   * A superadmin's administrator diff: users requested and not listed become `admin`s of the
   * community, users listed and not requested lose their community and become `vecino`,
   * everyone else is untouched; an accepted update stores the requested list.
   */
  lemma ActualizarComunidadDiferencia(cs: map<Id, Comunidad>, us: map<Id, Usuario>, actor: Actor, id: Id, cambios: CambiosComunidad)
    requires id in cs && actor.rol == Superadmin && cambios.administradores.Some?
    ensures var s := PlanActualizarComunidad(cs, us, actor, id, cambios);
      var (actuales, pedidos) := (cs[id].administradores, cambios.administradores.value);
      && (s.r.Ok? || s.r.failure.reason != DuplicateCif ==>
            && s.usuarios.Keys == us.Keys
            && (forall k :: k in us && k in pedidos && k !in actuales ==>
                  s.usuarios[k] == us[k].(comunidad := Some(id), rol := Admin))
            && (forall k :: k in us && k in actuales && k !in pedidos ==>
                  s.usuarios[k] == us[k].(comunidad := None, rol := Vecino))
            && (forall k :: k in us && (k in actuales <==> k in pedidos) ==> s.usuarios[k] == us[k]))
      && (s.r.Ok? ==> s.comunidades[id].administradores == pedidos)
  {
  }

  /**
   * A superadmin's accepted update keeps the administrator lists coherent when no requested
   * user is listed by another community.
   */
  lemma ActualizarComunidadAdmins(cs: map<Id, Comunidad>, us: map<Id, Usuario>, actor: Actor, id: Id, cambios: CambiosComunidad)
    requires AdminsCoherentes(cs, us)
    requires cambios.administradores.Some? ==>
      forall c, u :: c in cs && c != id && u in cs[c].administradores ==> u !in cambios.administradores.value
    ensures var s := PlanActualizarComunidad(cs, us, actor, id, cambios);
      s.r.Ok? ==> AdminsCoherentes(s.comunidades, s.usuarios)
  {
    var s := PlanActualizarComunidad(cs, us, actor, id, cambios);
    if s.r.Ok? {
      var diff := cambios.administradores.Some? && actor.rol == Superadmin;
      var a := AplicarCambios(cs[id], if diff then cambios else cambios.(administradores := None));
      assert s.comunidades == cs[id := a.value];
      if diff {
        assert s.usuarios == Diferencia(us, cs[id].administradores, cambios.administradores.value, id);
        DiferenciaCoherente(cs, us, id, a.value);
      } else {
        assert s.usuarios == us && a.value.administradores == cs[id].administradores;
        MismaListaCoherente(cs, us, id, a.value);
      }
    }
  }

  /** Storing the requested list and applying its diff to the users keeps the lists coherent. */
  lemma DiferenciaCoherente(cs: map<Id, Comunidad>, us: map<Id, Usuario>, id: Id, n: Comunidad)
    requires id in cs && AdminsCoherentes(cs, us)
    requires forall c, u :: c in cs && c != id && u in cs[c].administradores ==> u !in n.administradores
    ensures AdminsCoherentes(cs[id := n], Diferencia(us, cs[id].administradores, n.administradores, id))
  {
    var (actuales, pedidos) := (cs[id].administradores, n.administradores);
    var us' := Diferencia(us, actuales, pedidos, id);
    var cs' := cs[id := n];
    forall c, u | c in cs' && u in us' && u in cs'[c].administradores
      ensures us'[u].rol == Admin && us'[u].comunidad == Some(c)
    {
      if c == id {
        assert u in pedidos;
      } else {
        assert u in cs[c].administradores && u !in pedidos && u !in actuales;
      }
    }
  }

  /** Rewriting a community with the same list keeps the lists coherent. */
  lemma MismaListaCoherente(cs: map<Id, Comunidad>, us: map<Id, Usuario>, id: Id, n: Comunidad)
    requires id in cs && AdminsCoherentes(cs, us) && n.administradores == cs[id].administradores
    ensures AdminsCoherentes(cs[id := n], us)
  {
    var cs' := cs[id := n];
    forall c, u | c in cs' && u in us && u in cs'[c].administradores
      ensures us[u].rol == Admin && us[u].comunidad == Some(c)
    {
      assert u in cs[c].administradores;
    }
  }

  /** The update touches no address, and its write keeps both community indexes. */
  lemma ActualizarComunidadIndices(cs: map<Id, Comunidad>, us: map<Id, Usuario>, actor: Actor, id: Id, cambios: CambiosComunidad)
    requires EmailsUnicos(us) && ClavesUnicas(cs)
    ensures var s := PlanActualizarComunidad(cs, us, actor, id, cambios);
      EmailsUnicos(s.usuarios) && ClavesUnicas(s.comunidades)
  {
    if id in cs && PuedeActualizar(actor, id) {
      var diff := cambios.administradores.Some? && actor.rol == Superadmin;
      if diff {
        MismosEmails(us, Diferencia(us, cs[id].administradores, cambios.administradores.value, id));
      }
      var a := AplicarCambios(cs[id], if diff then cambios else cambios.(administradores := None));
      if a.Ok? {
        ModeloComunidad.EscribirConservaIndices(cs, id, a.value);
      }
    }
  }

  method ActualizarComunidad(db: Db, actor: Actor, id: Id, cambios: CambiosComunidad) returns (r: Result<Id>)
    requires db.Valid()
    modifies db
    ensures db.Valid()
    ensures var s := PlanActualizarComunidad(old(db.comunidades), old(db.usuarios), actor, id, cambios);
      r == s.r && db.usuarios == s.usuarios && db.comunidades == s.comunidades
    ensures db.votaciones == old(db.votaciones) && db.votos == old(db.votos) && db.viviendas == old(db.viviendas)
  {
    var s := PlanActualizarComunidad(db.comunidades, db.usuarios, actor, id, cambios);
    ActualizarComunidadIndices(db.comunidades, db.usuarios, actor, id, cambios);
    db.usuarios, db.comunidades := s.usuarios, s.comunidades;
    r := s.r;
  }

  // ---------------------------------------------------------------------------------------
  // Delete

  /** `eliminarComunidad`: 404 first, then 403 for anyone but a superadmin; members lose the reference. */
  function PlanEliminarComunidad(cs: map<Id, Comunidad>, us: map<Id, Usuario>, actor: Actor, id: Id)
    : Result<(map<Id, Comunidad>, map<Id, Usuario>)>
  {
    if id !in cs then Fail(404, CommunityNotFound)
    else if actor.rol != Superadmin then Fail(403, Forbidden)
    else Ok((cs - {id}, SinComunidad(us, id)))
  }

  /**
   * Deletion: 404 for an unknown id even to a non-superadmin, 403 for a non-superadmin; after
   * it no user names the community, only that reference changed, and the administrator lists
   * stay coherent.
   */
  lemma EliminarComunidadCorrecto(cs: map<Id, Comunidad>, us: map<Id, Usuario>, actor: Actor, id: Id)
    requires AdminsCoherentes(cs, us)
    ensures var r := PlanEliminarComunidad(cs, us, actor, id);
      && (id !in cs ==> r == Fail(404, CommunityNotFound))
      && (id in cs && actor.rol != Superadmin ==> r == Fail(403, Forbidden))
      && (r.Ok? ==> r.value.0.Keys == cs.Keys - {id} && r.value.1.Keys == us.Keys)
      && (r.Ok? ==> forall k :: k in r.value.1 ==>
            r.value.1[k].comunidad != Some(id) && r.value.1[k] == us[k].(comunidad := r.value.1[k].comunidad))
      && (r.Ok? ==> forall k :: k in us && us[k].comunidad != Some(id) ==> r.value.1[k] == us[k])
      && (r.Ok? ==> AdminsCoherentes(r.value.0, r.value.1))
  {
    var r := PlanEliminarComunidad(cs, us, actor, id);
    if r.Ok? {
      var (cs', us') := r.value;
      forall c, u | c in cs' && u in us' && u in cs'[c].administradores
        ensures us'[u].rol == Admin && us'[u].comunidad == Some(c)
      {
        assert cs'[c] == cs[c] && us[u].comunidad == Some(c);
      }
    }
  }

  method EliminarComunidad(db: Db, actor: Actor, id: Id) returns (r: Result<Id>)
    requires db.Valid()
    modifies db
    ensures db.Valid()
    ensures var p := PlanEliminarComunidad(old(db.comunidades), old(db.usuarios), actor, id);
      && (p.Err? ==> r == Err(p.failure) && unchanged(db))
      && (p.Ok? ==> r == Ok(id) && db.comunidades == p.value.0 && db.usuarios == p.value.1)
    ensures db.votaciones == old(db.votaciones) && db.votos == old(db.votos) && db.viviendas == old(db.viviendas)
  {
    var p := PlanEliminarComunidad(db.comunidades, db.usuarios, actor, id);
    if p.Err? {
      return Err(p.failure);
    }
    MismosEmails(db.usuarios, p.value.1);
    MismasClaves(db.comunidades, p.value.0);
    db.comunidades, db.usuarios := p.value.0, p.value.1;
    r := Ok(id);
  }

  // ---------------------------------------------------------------------------------------
  // Join

  /**
   * `unirseComunidad`: a falsy code is 400, a code no community has (the lookup's filter goes
   * through the trim setter) is 404, a caller who
   * already has a community is 400; otherwise the caller joins as `vecino`. The caller's
   * community is the one the middleware populated.
   */
  function PlanUnirse(cs: map<Id, Comunidad>, us: map<Id, Usuario>, actor: Actor, codigo: string): Result<map<Id, Usuario>>
    requires ClavesUnicas(cs) && actor.id in us
  {
    if codigo == "" then Fail(400, CodeRequired)
    else if !exists k :: k in cs && TieneCodigo(cs, Texto.Trim(codigo), k) then Fail(404, InvalidCode)
    else if actor.comunidad.Some? then Fail(400, AlreadyMember)
    else
      var k :| k in cs && TieneCodigo(cs, Texto.Trim(codigo), k);
      Ok(us[actor.id := us[actor.id].(comunidad := Some(k), rol := Vecino)])
  }

  /**
   * Joining: the three refusals in their order; the caller ends in the community that has the
   * code, as `vecino` whatever their role was, and no other user changes.
   */
  lemma PlanUnirseCorrecto(cs: map<Id, Comunidad>, us: map<Id, Usuario>, actor: Actor, codigo: string, k: Id)
    requires ClavesUnicas(cs) && actor.id in us
    ensures var r := PlanUnirse(cs, us, actor, codigo);
      && (codigo == "" ==> r == Fail(400, CodeRequired))
      && (codigo != "" && (forall c :: !TieneCodigo(cs, Texto.Trim(codigo), c)) ==> r == Fail(404, InvalidCode))
      && (codigo != "" && TieneCodigo(cs, Texto.Trim(codigo), k) && actor.comunidad.Some? ==> r == Fail(400, AlreadyMember))
      && (codigo != "" && TieneCodigo(cs, Texto.Trim(codigo), k) && actor.comunidad.None? ==>
          r.Ok? && r.value == us[actor.id := us[actor.id].(comunidad := Some(k), rol := Vecino)])
  {
    if codigo != "" && TieneCodigo(cs, Texto.Trim(codigo), k) {
      forall j | j in cs && TieneCodigo(cs, Texto.Trim(codigo), j) ensures j == k {
        assert cs[j].codigo == cs[k].codigo;
      }
    }
  }

  method UnirseComunidad(db: Db, actor: Actor, codigo: string) returns (r: Result<Id>)
    requires db.Valid() && actor.id in db.usuarios
    modifies db
    ensures db.Valid()
    ensures var p := PlanUnirse(old(db.comunidades), old(db.usuarios), actor, codigo);
      && (p.Err? ==> r == Err(p.failure) && unchanged(db))
      && (p.Ok? ==> r == Ok(actor.id) && db.usuarios == p.value)
    ensures db.votaciones == old(db.votaciones) && db.votos == old(db.votos)
    ensures db.viviendas == old(db.viviendas) && db.comunidades == old(db.comunidades)
  {
    var p := PlanUnirse(db.comunidades, db.usuarios, actor, codigo);
    if p.Err? {
      return Err(p.failure);
    }
    MismosEmails(db.usuarios, p.value);
    db.usuarios := p.value;
    r := Ok(actor.id);
  }
}
