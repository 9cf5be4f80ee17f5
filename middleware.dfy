/**
 * The authentication middleware: where `proteger` takes the token from, how it loads the
 * caller, and the two decision closures `autorizar` and `verificarComunidad`. Signature
 * checking is foreign: `verificar` maps a token to the id it was signed for, or `None`.
 */
module Middleware {
  import opened Common
  import opened ModeloUsuario
  import opened Almacen
  import Texto

  // ---------------------------------------------------------------------------------------
  // `String.prototype.split` with a one-character separator

  /** The pieces between separators, in order; `""` splits into `[""]`. */
  function Split(s: string, sep: char): (r: seq<string>)
    ensures |r| >= 1
    decreases |s|
  {
    if s == [] then [[]]
    else
      var resto := Split(s[1..], sep);
      if s[0] == sep then [[]] + resto else [[s[0]] + resto[0]] + resto[1..]
  }

  /** `Array.prototype.join` with a one-character separator. */
  function Join(partes: seq<string>, sep: char): string
  {
    if |partes| == 0 then []
    else if |partes| == 1 then partes[0]
    else partes[0] + [sep] + Join(partes[1..], sep)
  }

  /** No piece contains the separator. */
  lemma {:induction false} SplitSinSeparador(s: string, sep: char)
    ensures forall i :: 0 <= i < |Split(s, sep)| ==> sep !in Split(s, sep)[i]
    decreases |s|
  {
    if s != [] {
      SplitSinSeparador(s[1..], sep);
    }
  }

  /** Joining the pieces with the separator gives the text back. */
  lemma {:induction false} JoinSplit(s: string, sep: char)
    ensures Join(Split(s, sep), sep) == s
    decreases |s|
  {
    if s != [] {
      var resto := Split(s[1..], sep);
      JoinSplit(s[1..], sep);
      if s[0] == sep {
        assert Split(s, sep) == [[]] + resto;
        assert Split(s, sep)[1..] == resto;
      } else {
        var r := Split(s, sep);
        assert r == [[s[0]] + resto[0]] + resto[1..];
        if |resto| == 1 {
          assert Join(r, sep) == [s[0]] + resto[0];
        } else {
          assert r[1..] == resto[1..];
          assert Join(resto, sep) == resto[0] + [sep] + Join(resto[1..], sep);
        }
      }
    }
  }

  /** A text without the separator is one piece. */
  lemma {:induction false} SplitUnaPieza(s: string, sep: char)
    requires sep !in s
    ensures Split(s, sep) == [s]
    decreases |s|
  {
    if s != [] {
      assert sep !in s[1..] by {
        forall i | 0 <= i < |s[1..]| ensures s[1..][i] != sep {
          assert s[1..][i] == s[i + 1];
        }
      }
      SplitUnaPieza(s[1..], sep);
      assert [s[0]] + s[1..] == s;
    }
  }

  /** Splitting at a separator splits the pieces: `(a + sep + b).split(sep)` is `a`'s pieces then `b`'s. */
  lemma {:induction false} SplitConcat(a: string, b: string, sep: char)
    ensures Split(a + [sep] + b, sep) == Split(a, sep) + Split(b, sep)
    decreases |a|
  {
    if a == [] {
      assert [] + [sep] + b == [sep] + b;
      assert ([sep] + b)[1..] == b;
    } else {
      assert (a + [sep] + b)[1..] == a[1..] + [sep] + b;
      SplitConcat(a[1..], b, sep);
    }
  }

  // ---------------------------------------------------------------------------------------
  // `proteger`

  /** What `proteger` reads of a request: the `Authorization` header and the `token` cookie. */
  datatype Peticion = Peticion(authorization: Option<string>, cookie: Option<string>)

  /**
   * The token source: a truthy header starting with `Bearer` gives its second space-separated
   * word (undefined when there is none), otherwise a truthy cookie.
   */
  function Token(p: Peticion): Option<string>
  {
    if p.authorization.Some? && p.authorization.value != [] && Texto.StartsWith(p.authorization.value, "Bearer") then
      var partes := Split(p.authorization.value, ' ');
      if |partes| > 1 then Some(partes[1]) else None
    else if p.cookie.Some? && p.cookie.value != [] then p.cookie
    else None
  }

  /**
   * The token source as the header is meant to be written: `Bearer <t>` gives `t`; a header
   * that does not start with `Bearer` defers to the cookie; and a `Bearer` header with no
   * second word yields no token even when a cookie is present.
   */
  lemma TokenCorrecto(t: string, cookie: Option<string>, otra: string)
    requires ' ' !in t
    requires !Texto.StartsWith(otra, "Bearer")
    ensures Token(Peticion(Some("Bearer " + t), cookie)) == Some(t)
    ensures Token(Peticion(Some(otra), cookie)) == (if cookie.Some? && cookie.value != [] then cookie else None)
    ensures Token(Peticion(None, cookie)) == (if cookie.Some? && cookie.value != [] then cookie else None)
    ensures Token(Peticion(Some("Bearer"), cookie)) == None
  {
    var h := "Bearer " + t;
    assert h == "Bearer" + [' '] + t;
    SplitConcat("Bearer", t, ' ');
    SplitUnaPieza("Bearer", ' ');
    SplitUnaPieza(t, ' ');
    assert Texto.StartsWith(h, "Bearer") by {
      assert h[..|"Bearer"|] == "Bearer";
    }
    assert Texto.StartsWith("Bearer", "Bearer") by {
      assert "Bearer"[..|"Bearer"|] == "Bearer";
    }
  }

  /**
   * The community reference `populate` leaves on the caller: a reference to a community that
   * no longer exists reads as none.
   */
  function Poblada(ref: Option<Id>, cs: map<Id, ModeloComunidad.Comunidad>): (r: Option<Id>)
    ensures r.Some? <==> ref.Some? && ref.value in cs
    ensures r.Some? ==> r == ref
  {
    if ref.Some? && ref.value in cs then ref else None
  }

  /**
   * `proteger`: no token (or an empty one) is 401, a token that does not verify is 401, a
   * verified id naming no user is 404; otherwise the caller is the stored user, with the
   * community reference populated.
   */
  method Proteger(db: Db, p: Peticion, verificar: string -> Option<Id>) returns (r: Result<Actor>)
    ensures Token(p).None? || Token(p) == Some([]) ==> r == Fail(401, NotAuthenticated)
    ensures Token(p).Some? && Token(p).value != [] && verificar(Token(p).value).None? ==> r == Fail(401, NotAuthenticated)
    ensures r.Ok? <==> Token(p).Some? && Token(p).value != [] && verificar(Token(p).value).Some?
                       && verificar(Token(p).value).value in db.usuarios
    ensures r.Err? && r.failure.status != 401 ==> r == Fail(404, UserNotFound)
    ensures r.Ok? ==> var id := verificar(Token(p).value).value;
      r.value == Actor(id, db.usuarios[id].rol, db.usuarios[id].vivienda, Poblada(db.usuarios[id].comunidad, db.comunidades))
  {
    var token: Option<string> := None;
    if p.authorization.Some? && p.authorization.value != [] && Texto.StartsWith(p.authorization.value, "Bearer") {
      var partes := Split(p.authorization.value, ' ');
      if |partes| > 1 {
        token := Some(partes[1]);
      }
    } else if p.cookie.Some? && p.cookie.value != [] {
      token := p.cookie;
    }
    if token.None? || token.value == [] {
      return Fail(401, NotAuthenticated);
    }
    var decodificado := verificar(token.value);
    if decodificado.None? {
      return Fail(401, NotAuthenticated);
    }
    var id := decodificado.value;
    if id !in db.usuarios {
      return Fail(404, UserNotFound);
    }
    var u := db.usuarios[id];
    r := Ok(Actor(id, u.rol, u.vivienda, Poblada(u.comunidad, db.comunidades)));
  }

  // ---------------------------------------------------------------------------------------
  // `autorizar` and `verificarComunidad`

  /** `autorizar(...roles)`: the caller's role must be one of those listed, else 403. */
  function Autorizar(roles: seq<Rol>, actor: Actor): (r: Result<()>)
    ensures r.Ok? <==> actor.rol in roles
    ensures r.Err? ==> r == Fail(403, Forbidden)
  {
    if actor.rol in roles then Ok(()) else Fail(403, Forbidden)
  }

  /**
   * `verificarComunidad`: a superadmin always passes; the id checked is the route parameter,
   * else the body field; a non-superadmin without an id passes exactly when they have a
   * community, and with an id exactly when it is their community; every refusal is 403.
   */
  function VerificarComunidad(actor: Actor, param: Option<Id>, cuerpo: Option<Id>): (r: Result<()>)
    ensures actor.rol == Superadmin ==> r.Ok?
    ensures actor.rol != Superadmin && param.None? && cuerpo.None? ==>
      (r.Ok? <==> actor.comunidad.Some?) && (r.Err? ==> r == Fail(403, NoCommunityAssigned))
    ensures actor.rol != Superadmin && param.Some? ==> (r.Ok? <==> actor.comunidad == param)
    ensures actor.rol != Superadmin && param.None? && cuerpo.Some? ==> (r.Ok? <==> actor.comunidad == cuerpo)
    ensures r.Err? ==> r.failure.status == 403
  {
    if actor.rol == Superadmin then Ok(())
    else
      var cid := if param.Some? then param else cuerpo;
      if cid.None? then
        if actor.comunidad.None? then Fail(403, NoCommunityAssigned) else Ok(())
      else if actor.comunidad != cid then Fail(403, Forbidden)
      else Ok(())
  }
}
