/** The user schema: role enumeration, e-mail and password constraints, the pre-save hook. */
module ModeloUsuario {
  import opened Common
  import Texto

  /** `vecino` (resident), `admin` (community administrator), `superadmin`. */
  datatype Rol = Vecino | Admin | Superadmin

  datatype Usuario = Usuario(
    nombre: string,
    email: string,
    password: string,
    rol: Rol,
    vivienda: Option<Id>,
    comunidad: Option<Id>)

  /**
   * The authenticated caller as `Middleware.Proteger` loads it: `comunidad` is the populated
   * reference, `None` when unset or when that community no longer exists.
   */
  datatype Actor = Actor(id: Id, rol: Rol, vivienda: Option<Id>, comunidad: Option<Id>)

  /**
   * The text `toString()` gives for the references the handlers compare: an id gives its hex
   * text; the community document the middleware populates into the caller gives Mongoose's
   * inspection dump of that document, which is never the text of an id.
   */
  datatype Cadena = Hex(id: Id) | Volcado(documento: Id)

  /** `req.usuario.comunidad.toString()`: the caller's community is a populated document. */
  function ComunidadComoTexto(actor: Actor): (t: Cadena)
    requires actor.comunidad.Some?
    ensures forall c :: t != Hex(c)
  {
    Volcado(actor.comunidad.value)
  }

  /** Reading a stored role string; the default for a missing role is `vecino`. */
  function ParseRol(s: Option<string>): (r: Option<Rol>)
    ensures s.None? ==> r == Some(Vecino)
    ensures s.Some? ==> (r == Some(Vecino) <==> s.value == "vecino")
    ensures s.Some? ==> (r == Some(Admin) <==> s.value == "admin")
    ensures s.Some? ==> (r == Some(Superadmin) <==> s.value == "superadmin")
  {
    if s.None? then Some(Vecino)
    else if s.value == "vecino" then Some(Vecino)
    else if s.value == "admin" then Some(Admin)
    else if s.value == "superadmin" then Some(Superadmin)
    else None
  }

  /**
   * The pattern `^\S+@\S+\.\S+$`: no white space anywhere, an `@` after at least one
   * character, and a `.` at least one character after it with at least one character following.
   */
  predicate CoincideEmail(s: string)
  {
    && (forall i :: 0 <= i < |s| ==> !Texto.IsSpace(s[i]))
    && exists a, d :: 1 <= a && a + 2 <= d <= |s| - 2 && s[a] == '@' && s[d] == '.'
  }

  /** The first `@` at or after `desde`. */
  function PrimeraArroba(s: string, desde: nat): (r: Option<nat>)
    decreases |s| - desde
    ensures r.Some? ==> desde <= r.value < |s| && s[r.value] == '@'
    ensures r.Some? ==> forall j :: desde <= j < r.value ==> s[j] != '@'
    ensures r.None? ==> forall j :: desde <= j < |s| ==> s[j] != '@'
  {
    if desde >= |s| then None
    else if s[desde] == '@' then Some(desde)
    else PrimeraArroba(s, desde + 1)
  }

  /** Whether some `.` sits at an index in `[desde, hasta]`. */
  function HayPunto(s: string, desde: int, hasta: int): (b: bool)
    requires 0 <= desde
    decreases hasta - desde
    ensures b <==> exists d :: desde <= d <= hasta && d < |s| && s[d] == '.'
  {
    if desde > hasta || desde >= |s| then false
    else if s[desde] == '.' then true
    else HayPunto(s, desde + 1, hasta)
  }

  function SinEspacios(s: string): (b: bool)
    ensures b <==> forall i :: 0 <= i < |s| ==> !Texto.IsSpace(s[i])
  {
    if s == [] then true else !Texto.IsSpace(s[0]) && SinEspacios(s[1..])
  }

  /** The e-mail check, deciding the pattern by looking at the first usable `@`. */
  function EmailValido(s: string): (b: bool)
    ensures b <==> CoincideEmail(s)
  {
    var arroba := PrimeraArroba(s, 1);
    if !SinEspacios(s) || arroba.None? then
      false
    else
      PrimeraArrobaBasta(s, arroba.value);
      HayPunto(s, arroba.value + 2, |s| - 2)
  }

  /** Taking the first `@` past position 0 loses no match: it leaves the most room for the `.`. */
  lemma PrimeraArrobaBasta(s: string, a0: nat)
    requires 1 <= a0 < |s| && s[a0] == '@'
    requires forall j :: 1 <= j < a0 ==> s[j] != '@'
    requires forall i :: 0 <= i < |s| ==> !Texto.IsSpace(s[i])
    ensures CoincideEmail(s) <==> exists d :: a0 + 2 <= d <= |s| - 2 && d < |s| && s[d] == '.'
  {
    if CoincideEmail(s) {
      var a, d :| 1 <= a && a + 2 <= d <= |s| - 2 && s[a] == '@' && s[d] == '.';
      assert a0 <= a;
    }
    if exists d :: a0 + 2 <= d <= |s| - 2 && d < |s| && s[d] == '.' {
      var d :| a0 + 2 <= d <= |s| - 2 && d < |s| && s[d] == '.';
      assert 1 <= a0 && a0 + 2 <= d <= |s| - 2 && s[a0] == '@' && s[d] == '.';
    }
  }

  /** The `lowercase` and `trim` setters on `email`. */
  function NormalizarEmail(e: string): (r: string)
    ensures r == Texto.Trim(Texto.Lower(e))
  {
    Texto.Trim(Texto.Lower(e))
  }

  /** Normalising an already stored address changes nothing. */
  lemma NormalizarEmailIdempotente(e: string)
    ensures NormalizarEmail(NormalizarEmail(e)) == NormalizarEmail(e)
  {
    var l := Texto.Lower(e);
    var t := Texto.Trim(l);
    Texto.LowerIdempotent(e);
    assert forall i :: 0 <= i < |l| ==> Texto.LowerChar(l[i]) == l[i];
    Texto.TrimInfix(l);
    LowerInfix(l, t);
    Texto.TrimIdempotent(l);
  }

  lemma LowerInfix(l: string, t: string)
    requires forall i :: 0 <= i < |l| ==> Texto.LowerChar(l[i]) == l[i]
    requires exists i :: Texto.OccursAt(l, t, i)
    ensures Texto.Lower(t) == t
  {
    var i :| Texto.OccursAt(l, t, i);
    forall j | 0 <= j < |t| ensures Texto.Lower(t)[j] == t[j] {
      assert t[j] == l[i + j];
    }
  }

  /**
   * What holds of every stored user: a non-blank trimmed name and a normalised address
   * matching the pattern. The password length is checked on the plain text before hashing.
   */
  predicate EsValido(u: Usuario)
  {
    && u.nombre != [] && u.nombre == Texto.Trim(u.nombre)
    && u.email == NormalizarEmail(u.email) && CoincideEmail(u.email)
  }

  /**
   * Saving a user: setters, validation (the password length is checked on the plain text)
   * and the pre-save hook, which hashes the password only when it was modified.
   */
  function Guardar(u: Usuario, passwordModificada: bool, hash: string -> string): (r: Result<Usuario>)
    ensures r.Ok? <==>
      Texto.Trim(u.nombre) != [] && CoincideEmail(NormalizarEmail(u.email)) && Texto.Utf16Length(u.password) >= 6
    ensures r.Ok? ==> EsValido(r.value)
    ensures r.Ok? ==> r.value.email == NormalizarEmail(u.email) && r.value.rol == u.rol
    ensures r.Ok? ==> r.value.vivienda == u.vivienda && r.value.comunidad == u.comunidad
    ensures r.Ok? && passwordModificada ==> r.value.password == hash(u.password)
    ensures r.Ok? && !passwordModificada ==> r.value.password == u.password
    ensures r.Err? ==> r.failure == Failure(400, SchemaValidation)
  {
    var n := u.(nombre := Texto.Trim(u.nombre), email := NormalizarEmail(u.email));
    Texto.TrimIdempotent(u.nombre);
    NormalizarEmailIdempotente(u.email);
    if n.nombre != [] && EmailValido(n.email) && Texto.Utf16Length(n.password) >= 6 then
      Ok(PreGuardar(n, passwordModificada, hash))
    else
      Fail(400, SchemaValidation)
  }

  /** The pre-save hook. */
  function PreGuardar(u: Usuario, passwordModificada: bool, hash: string -> string): (r: Usuario)
    ensures passwordModificada ==> r == u.(password := hash(u.password))
    ensures !passwordModificada ==> r == u
  {
    if passwordModificada then u.(password := hash(u.password)) else u
  }

  /** The unique index on `email`. */
  predicate EmailsUnicos(m: map<Id, Usuario>)
  {
    forall a, b :: a in m && b in m && m[a].email == m[b].email ==> a == b
  }

  predicate EmailOcupado(m: map<Id, Usuario>, e: string, excepto: Option<Id>)
  {
    exists k :: k in m && Some(k) != excepto && m[k].email == e
  }

  /** Writing user `id` under the index: a clash of addresses is a duplicate-key error (400). */
  function Escribir(m: map<Id, Usuario>, id: Id, u: Usuario): (r: Result<map<Id, Usuario>>)
    ensures r.Ok? <==> !EmailOcupado(m, u.email, Some(id))
    ensures r.Ok? ==> r.value == m[id := u]
    ensures r.Err? ==> r.failure == Failure(400, DuplicateKey)
  {
    if EmailOcupado(m, u.email, Some(id)) then Fail(400, DuplicateKey) else Ok(m[id := u])
  }

  lemma EscribirConservaIndice(m: map<Id, Usuario>, id: Id, u: Usuario)
    requires EmailsUnicos(m)
    ensures Escribir(m, id, u).Ok? ==> EmailsUnicos(Escribir(m, id, u).value)
  {
    if Escribir(m, id, u).Ok? {
      var m' := m[id := u];
      forall a, b | a in m' && b in m'
        ensures m'[a].email == m'[b].email ==> a == b
      {
        if a != id {
          assert m'[a] == m[a];
        }
        if b != id {
          assert m'[b] == m[b];
        }
      }
    }
  }
}
