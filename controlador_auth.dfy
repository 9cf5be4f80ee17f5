/**
 * Registration and profile update. Token signing, the cookie and bcrypt are foreign: the
 * hash is a parameter, and the token is not modelled.
 */
module ControladorAuth {
  import opened Common
  import opened ModeloVivienda
  import opened ModeloUsuario
  import opened ModeloComunidad
  import opened Almacen
  import Arrays
  import Texto

  // ---------------------------------------------------------------------------------------
  // Registration

  /** The body of `registro`; a missing or empty text is `""`, a falsy dwelling id `None`. */
  datatype Registro = Registro(nombre: string, email: string, password: string, idVivienda: Option<Id>, codigoComunidad: string)

  /**
   * `Comunidad.findOne({ codigo })` for a truthy code: the filter goes through the trim
   * setter, so the community found is the one holding the trimmed code, `None` when no
   * community has it. At most one does, by the unique index on `codigo`.
   */
  function PorCodigo(cs: map<Id, Comunidad>, codigo: string): (r: Option<Id>)
    requires ClavesUnicas(cs)
    ensures r.Some? <==> exists k :: k in cs && TieneCodigo(cs, Texto.Trim(codigo), k)
    ensures r.Some? ==> TieneCodigo(cs, Texto.Trim(codigo), r.value)
    ensures forall k :: k in cs && TieneCodigo(cs, Texto.Trim(codigo), k) ==> r == Some(k)
  {
    if exists k :: k in cs && TieneCodigo(cs, Texto.Trim(codigo), k) then
      var k :| k in cs && TieneCodigo(cs, Texto.Trim(codigo), k); Some(k)
    else None
  }

  /**
   * The role `registro` saves: `vecino` with a community or a dwelling; otherwise
   * `superadmin` when the collection counts one user after the insert (`unico`: the new
   * user is the only one), else the default.
   */
  function RolRegistro(conAlgo: bool, unico: bool): Rol
  {
    if conAlgo then Vecino else if unico then Superadmin else Vecino
  }

  /**
   * `registro` up to `Usuario.create`: the address must be free (400), the lookup's filter
   * going through the `lowercase` and `trim` setters; a truthy code must name a community
   * (400); a dwelling id must name a dwelling (400), whose
   * community wins over the code's.
   */
  function DocumentoRegistro(vs: map<Id, Vivienda>, us: map<Id, Usuario>, cs: map<Id, Comunidad>, reg: Registro): Result<Usuario>
    requires ClavesUnicas(cs)
  {
    if EmailOcupado(us, NormalizarEmail(reg.email), None) then Fail(400, EmailTaken)
    else
      var porCodigo := if reg.codigoComunidad != "" then PorCodigo(cs, reg.codigoComunidad) else None;
      if reg.codigoComunidad != "" && porCodigo.None? then Fail(400, InvalidCode)
      else if reg.idVivienda.Some? && reg.idVivienda.value !in vs then Fail(400, InvalidDwellingId)
      else
        var comunidad := if reg.idVivienda.Some? then Some(vs[reg.idVivienda.value].comunidad) else porCodigo;
        Ok(Usuario(reg.nombre, reg.email, reg.password, Vecino, reg.idVivienda, comunidad))
  }

  /** The refusals in their order, and the community the document names. */
  lemma DocumentoRegistroCorrecto(vs: map<Id, Vivienda>, us: map<Id, Usuario>, cs: map<Id, Comunidad>, reg: Registro)
    requires ClavesUnicas(cs)
    ensures var d := DocumentoRegistro(vs, us, cs, reg);
      && (EmailOcupado(us, NormalizarEmail(reg.email), None) ==> d == Fail(400, EmailTaken))
      && ((!EmailOcupado(us, NormalizarEmail(reg.email), None) && reg.codigoComunidad != "" &&
           forall k :: k in cs ==> !TieneCodigo(cs, Texto.Trim(reg.codigoComunidad), k)) ==> d == Fail(400, InvalidCode))
      && (d.Ok? ==> d.value.vivienda == reg.idVivienda && d.value.password == reg.password && d.value.rol == Vecino)
      && (d.Ok? && reg.idVivienda.Some? ==>
          reg.idVivienda.value in vs && d.value.comunidad == Some(vs[reg.idVivienda.value].comunidad))
      && (d.Ok? && reg.idVivienda.None? && reg.codigoComunidad != "" ==>
          d.value.comunidad.Some? && TieneCodigo(cs, Texto.Trim(reg.codigoComunidad), d.value.comunidad.value))
      && (d.Ok? && reg.idVivienda.None? && reg.codigoComunidad == "" ==> d.value.comunidad == None)
  {
  }

  /**
   * After the insert: the role (`vecino` with a community or a dwelling, `superadmin` when the
   * collection counts one user, else the default), and the dwelling's `$addToSet`.
   */
  function TrasAlta(vs: map<Id, Vivienda>, us: map<Id, Usuario>, id: Id, u: Usuario, unico: bool)
    : (r: (map<Id, Vivienda>, map<Id, Usuario>))
    ensures r.1.Keys == us.Keys + {id} && r.1[id] == u.(rol := r.1[id].rol)
    ensures forall k :: k in us && k != id ==> r.1[k] == us[k]
    ensures r.0.Keys == vs.Keys
    ensures forall k :: k in r.0 ==> r.0[k].numeroPuerta == vs[k].numeroPuerta && r.0[k].comunidad == vs[k].comunidad
  {
    var u' := u.(rol := RolRegistro(u.comunidad.Some? || u.vivienda.Some?, unico));
    (if u.vivienda.Some? then MeterHabitante(vs, u.vivienda.value, id) else vs, us[id := u'])
  }

  /** `registro`: the document, the schema and hook, the e-mail index, then role and residents. */
  function PlanRegistro(vs: map<Id, Vivienda>, us: map<Id, Usuario>, cs: map<Id, Comunidad>, reg: Registro, id: Id, hash: string -> string)
    : Result<(map<Id, Vivienda>, map<Id, Usuario>)>
    requires ClavesUnicas(cs)
  {
    var d := DocumentoRegistro(vs, us, cs, reg);
    if d.Err? then Err(d.failure)
    else
      var g := ModeloUsuario.Guardar(d.value, true, hash);
      if g.Err? then Err(g.failure)
      else
        var w := ModeloUsuario.Escribir(us, id, g.value);
        if w.Err? then Err(w.failure)
        else Ok(TrasAlta(vs, us, id, g.value, w.value.Keys == {id}))
  }

  /** Registration adds exactly the new user and changes no other. */
  lemma RegistroSoloAlta(vs: map<Id, Vivienda>, us: map<Id, Usuario>, cs: map<Id, Comunidad>, reg: Registro, id: Id, hash: string -> string)
    requires ClavesUnicas(cs)
    ensures var r := PlanRegistro(vs, us, cs, reg, id, hash);
      && (r.Ok? ==> r.value.1.Keys == us.Keys + {id})
      && (r.Ok? ==> forall k :: k in us && k != id ==> r.value.1[k] == us[k])
  {
    var d := DocumentoRegistro(vs, us, cs, reg);
    if d.Ok? {
      var g := ModeloUsuario.Guardar(d.value, true, hash);
      if g.Ok? {
        var w := ModeloUsuario.Escribir(us, id, g.value);
        if w.Ok? {
          assert PlanRegistro(vs, us, cs, reg, id, hash) == Ok(TrasAlta(vs, us, id, g.value, w.value.Keys == {id}));
        }
      }
    }
  }

  /**
   * What a registered user is: valid, with the hashed password, in the dwelling sent and its
   * community, or else in the community of the code.
   */
  lemma PlanRegistroCorrecto(vs: map<Id, Vivienda>, us: map<Id, Usuario>, cs: map<Id, Comunidad>, reg: Registro, id: Id, hash: string -> string)
    requires ClavesUnicas(cs)
    ensures var r := PlanRegistro(vs, us, cs, reg, id, hash);
      && (r.Ok? ==> id in r.value.1 && ModeloUsuario.EsValido(r.value.1[id]))
      && (r.Ok? ==> r.value.1[id].password == hash(reg.password) && r.value.1[id].vivienda == reg.idVivienda)
      && (r.Ok? && reg.idVivienda.Some? ==>
          reg.idVivienda.value in vs && r.value.1[id].comunidad == Some(vs[reg.idVivienda.value].comunidad))
      && (r.Ok? && reg.idVivienda.None? && reg.codigoComunidad != "" ==>
          r.value.1[id].comunidad.Some? && TieneCodigo(cs, Texto.Trim(reg.codigoComunidad), r.value.1[id].comunidad.value))
  {
    var d := DocumentoRegistro(vs, us, cs, reg);
    DocumentoRegistroCorrecto(vs, us, cs, reg);
    if d.Ok? {
      var g := ModeloUsuario.Guardar(d.value, true, hash);
      if g.Ok? {
        var w := ModeloUsuario.Escribir(us, id, g.value);
        if w.Ok? {
          assert PlanRegistro(vs, us, cs, reg, id, hash) == Ok(TrasAlta(vs, us, id, g.value, w.value.Keys == {id}));
        }
      }
    }
  }

  /** A registered user with a dwelling is listed in it; without one no dwelling changes. */
  lemma RegistroVivienda(vs: map<Id, Vivienda>, us: map<Id, Usuario>, cs: map<Id, Comunidad>, reg: Registro, id: Id, hash: string -> string)
    requires ClavesUnicas(cs)
    ensures var r := PlanRegistro(vs, us, cs, reg, id, hash);
      && (r.Ok? && reg.idVivienda.Some? ==> var v := reg.idVivienda.value;
          v in vs && r.value.0[v].habitantes == Arrays.AddToSet(vs[v].habitantes, id))
      && (r.Ok? && reg.idVivienda.None? ==> r.value.0 == vs)
  {
    var d := DocumentoRegistro(vs, us, cs, reg);
    DocumentoRegistroCorrecto(vs, us, cs, reg);
    if d.Ok? {
      var g := ModeloUsuario.Guardar(d.value, true, hash);
      if g.Ok? {
        var w := ModeloUsuario.Escribir(us, id, g.value);
        if w.Ok? {
          assert PlanRegistro(vs, us, cs, reg, id, hash) == Ok(TrasAlta(vs, us, id, g.value, w.value.Keys == {id}));
          TrasAltaVivienda(vs, us, id, g.value, w.value.Keys == {id});
        }
      }
    }
  }

  lemma TrasAltaVivienda(vs: map<Id, Vivienda>, us: map<Id, Usuario>, id: Id, u: Usuario, unico: bool)
    ensures u.vivienda.Some? && u.vivienda.value in vs ==>
      TrasAlta(vs, us, id, u, unico).0[u.vivienda.value].habitantes == Arrays.AddToSet(vs[u.vivienda.value].habitantes, id)
    ensures u.vivienda.None? ==> TrasAlta(vs, us, id, u, unico).0 == vs
  {
  }

  /** The role after the insert: with nothing to join, `superadmin` exactly when no user existed before. */
  lemma RolTrasAlta(vs: map<Id, Vivienda>, us: map<Id, Usuario>, id: Id, u: Usuario)
    requires id !in us
    ensures var r := TrasAlta(vs, us, id, u, us[id := u].Keys == {id}).1[id].rol;
      && (u.comunidad.Some? || u.vivienda.Some? ==> r == Vecino)
      && (u.comunidad.None? && u.vivienda.None? ==> (r == Superadmin <==> us == map[]))
  {
    if us != map[] {
      var k :| k in us;
      assert k in us[id := u].Keys;
    }
  }

  /**
   * The first user of an empty system who registers without a code or a dwelling becomes
   * `superadmin`, and only they do; anyone with a code or a dwelling is `vecino`.
   */
  lemma RegistroPrimerUsuario(vs: map<Id, Vivienda>, us: map<Id, Usuario>, cs: map<Id, Comunidad>, reg: Registro, id: Id, hash: string -> string)
    requires ClavesUnicas(cs) && id !in us
    ensures var r := PlanRegistro(vs, us, cs, reg, id, hash);
      && (r.Ok? && reg.idVivienda.None? && reg.codigoComunidad == "" ==>
          (r.value.1[id].rol == Superadmin <==> us == map[]))
      && (r.Ok? && (reg.idVivienda.Some? || reg.codigoComunidad != "") ==> r.value.1[id].rol == Vecino)
  {
    var d := DocumentoRegistro(vs, us, cs, reg);
    DocumentoRegistroCorrecto(vs, us, cs, reg);
    if d.Ok? {
      var g := ModeloUsuario.Guardar(d.value, true, hash);
      if g.Ok? && ModeloUsuario.Escribir(us, id, g.value).Ok? {
        assert PlanRegistro(vs, us, cs, reg, id, hash) == Ok(TrasAlta(vs, us, id, g.value, us[id := g.value].Keys == {id}));
        RolTrasAlta(vs, us, id, g.value);
      }
    }
  }

  /**
   * The existence check and the index agree: an address that is stored once lower-cased and
   * trimmed is refused as taken, whatever case or surrounding blanks it is sent with, and an
   * accepted registration never collides in the index.
   */
  lemma RegistroMayusculas(vs: map<Id, Vivienda>, us: map<Id, Usuario>, cs: map<Id, Comunidad>, reg: Registro, id: Id, hash: string -> string)
    requires ClavesUnicas(cs) && id !in us
    ensures var r := PlanRegistro(vs, us, cs, reg, id, hash);
      && (EmailOcupado(us, NormalizarEmail(reg.email), None) ==> r == Fail(400, EmailTaken))
      && (!EmailOcupado(us, NormalizarEmail(reg.email), None) ==> r.Err? ==> r.failure.reason != DuplicateKey)
  {
    var d := DocumentoRegistro(vs, us, cs, reg);
    if d.Err? {
      assert PlanRegistro(vs, us, cs, reg, id, hash) == Err(d.failure);
    } else {
      assert d.value.email == reg.email;
      var g := ModeloUsuario.Guardar(d.value, true, hash);
      if g.Ok? {
        assert !EmailOcupado(us, g.value.email, Some(id));
        assert ModeloUsuario.Escribir(us, id, g.value).Ok?;
      }
    }
  }

  /** Registration keeps residence coherent and lists the new user once in their dwelling. */
  lemma RegistroCoherente(vs: map<Id, Vivienda>, us: map<Id, Usuario>, cs: map<Id, Comunidad>, reg: Registro, id: Id, hash: string -> string)
    requires ClavesUnicas(cs) && Coherente(vs, us)
    requires id !in us && forall v :: v in vs ==> id !in vs[v].habitantes
    ensures var r := PlanRegistro(vs, us, cs, reg, id, hash);
      && (r.Ok? ==> Coherente(r.value.0, r.value.1))
      && (r.Ok? && reg.idVivienda.Some? ==> r.value.0[reg.idVivienda.value].habitantes == vs[reg.idVivienda.value].habitantes + [id])
  {
    var d := DocumentoRegistro(vs, us, cs, reg);
    DocumentoRegistroCorrecto(vs, us, cs, reg);
    if d.Ok? {
      var g := ModeloUsuario.Guardar(d.value, true, hash);
      if g.Ok? && ModeloUsuario.Escribir(us, id, g.value).Ok? {
        var t := TrasAlta(vs, us, id, g.value, us[id := g.value].Keys == {id});
        assert PlanRegistro(vs, us, cs, reg, id, hash) == Ok(t);
        assert t.1[id].vivienda == g.value.vivienda == reg.idVivienda;
        assert t.0 == (if reg.idVivienda.Some? then MeterHabitante(vs, reg.idVivienda.value, id) else vs);
        AltaCoherente(vs, us, id, t.1[id]);
        assert t.1 == us[id := t.1[id]];
        if reg.idVivienda.Some? {
          var v := reg.idVivienda.value;
          assert id !in vs[v].habitantes;
          assert t.0[v].habitantes == Arrays.AddToSet(vs[v].habitantes, id);
        }
      }
    }
  }

  /** `registro` on the store. The second save neither re-hashes nor fails: it changes only the role. */
  method Registrar(db: Db, reg: Registro, id: Id, hash: string -> string) returns (r: Result<Id>)
    requires db.Valid() && id !in db.usuarios
    modifies db
    ensures db.Valid()
    ensures var p := PlanRegistro(old(db.viviendas), old(db.usuarios), old(db.comunidades), reg, id, hash);
      && (p.Err? ==> r == Err(p.failure) && unchanged(db))
      && (p.Ok? ==> r == Ok(id) && db.viviendas == p.value.0 && db.usuarios == p.value.1)
    ensures db.votaciones == old(db.votaciones) && db.votos == old(db.votos) && db.comunidades == old(db.comunidades)
  {
    var p := PlanRegistro(db.viviendas, db.usuarios, db.comunidades, reg, id, hash);
    if p.Err? {
      return Err(p.failure);
    }
    RegistroIndices(db.viviendas, db.usuarios, db.comunidades, reg, id, hash);
    db.viviendas, db.usuarios := p.value.0, p.value.1;
    r := Ok(id);
  }

  /** Registration changes no door number and keeps the e-mail index. */
  lemma RegistroIndices(vs: map<Id, Vivienda>, us: map<Id, Usuario>, cs: map<Id, Comunidad>, reg: Registro, id: Id, hash: string -> string)
    requires ClavesUnicas(cs) && PuertasUnicas(vs) && EmailsUnicos(us)
    ensures var r := PlanRegistro(vs, us, cs, reg, id, hash);
      r.Ok? ==> PuertasUnicas(r.value.0) && EmailsUnicos(r.value.1)
  {
    var d := DocumentoRegistro(vs, us, cs, reg);
    if d.Ok? {
      var g := ModeloUsuario.Guardar(d.value, true, hash);
      if g.Ok? && ModeloUsuario.Escribir(us, id, g.value).Ok? {
        var t := TrasAlta(vs, us, id, g.value, us[id := g.value].Keys == {id});
        assert PlanRegistro(vs, us, cs, reg, id, hash) == Ok(t);
        ModeloUsuario.EscribirConservaIndice(us, id, g.value);
        TrasAltaIndices(vs, us, id, g.value, us[id := g.value].Keys == {id});
      }
    }
  }

  lemma TrasAltaIndices(vs: map<Id, Vivienda>, us: map<Id, Usuario>, id: Id, u: Usuario, unico: bool)
    requires PuertasUnicas(vs) && EmailsUnicos(us[id := u])
    ensures PuertasUnicas(TrasAlta(vs, us, id, u, unico).0) && EmailsUnicos(TrasAlta(vs, us, id, u, unico).1)
  {
    var t := TrasAlta(vs, us, id, u, unico);
    MismasPuertas(vs, t.0);
    MismosEmails(us[id := u], t.1);
  }

  // ---------------------------------------------------------------------------------------
  // Profile

  /**
   * `actualizarPerfil`: a truthy password shorter than six UTF-16 code units is 400 before anything
   * is written; a truthy name is set (trimmed, and refused when blank), a truthy password is
   * hashed; nothing else changes.
   */
  function PlanPerfil(us: map<Id, Usuario>, uid: Id, nombre: string, password: string, hash: string -> string)
    : Result<map<Id, Usuario>>
    requires uid in us
  {
    if password != "" && Texto.Utf16Length(password) < 6 then Fail(400, ShortPassword)
    else
      var u := us[uid];
      var n := if nombre != "" then Texto.Trim(nombre) else u.nombre;
      if nombre != "" && n == "" then Fail(400, SchemaValidation)
      else Ok(us[uid := u.(nombre := n, password := if password != "" then hash(password) else u.password)])
  }

  /**
   * The profile update: exactly a short truthy password is refused with 400 ShortPassword;
   * an accepted update changes only the caller's name and password, keeps a stored user
   * valid, and an empty password or name leaves that field as it was.
   */
  lemma PlanPerfilCorrecto(us: map<Id, Usuario>, uid: Id, nombre: string, password: string, hash: string -> string)
    requires uid in us
    ensures var r := PlanPerfil(us, uid, nombre, password, hash);
      && (r == Fail(400, ShortPassword) <==> password != "" && Texto.Utf16Length(password) < 6)
      && (r.Ok? ==> r.value.Keys == us.Keys && forall k :: k in us && k != uid ==> r.value[k] == us[k])
      && (r.Ok? ==> var (u, u') := (us[uid], r.value[uid]);
          && u'.email == u.email && u'.rol == u.rol && u'.vivienda == u.vivienda && u'.comunidad == u.comunidad
          && (password != "" ==> u'.password == hash(password))
          && (password == "" ==> u'.password == u.password)
          && (nombre != "" ==> u'.nombre == Texto.Trim(nombre))
          && (nombre == "" ==> u'.nombre == u.nombre))
      && (r.Ok? && ModeloUsuario.EsValido(us[uid]) ==> ModeloUsuario.EsValido(r.value[uid]))
  {
    var r := PlanPerfil(us, uid, nombre, password, hash);
    if r.Ok? && nombre != "" {
      Texto.TrimIdempotent(nombre);
    }
  }

  /** `actualizarPerfil` for the authenticated caller. */
  method ActualizarPerfil(db: Db, actor: Actor, nombre: string, password: string, hash: string -> string) returns (r: Result<Id>)
    requires db.Valid() && actor.id in db.usuarios
    modifies db
    ensures db.Valid()
    ensures var p := PlanPerfil(old(db.usuarios), actor.id, nombre, password, hash);
      && (p.Err? ==> r == Err(p.failure) && unchanged(db))
      && (p.Ok? ==> r == Ok(actor.id) && db.usuarios == p.value)
    ensures db.votaciones == old(db.votaciones) && db.votos == old(db.votos)
    ensures db.viviendas == old(db.viviendas) && db.comunidades == old(db.comunidades)
  {
    var p := PlanPerfil(db.usuarios, actor.id, nombre, password, hash);
    if p.Err? {
      return Err(p.failure);
    }
    MismosEmails(db.usuarios, p.value);
    db.usuarios := p.value;
    r := Ok(actor.id);
  }
}
