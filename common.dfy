/** Shared vocabulary of the model: identifiers, optional values, request fields and
    the error values the Express handlers pass to `next`. */
module Common {

  /** Mongo ObjectIds are opaque and only compared for equality. */
  type Id = nat

  /** Wall-clock instants and differences, in milliseconds as `Date` arithmetic gives them. */
  type Instant = int

  datatype Option<+T> = None | Some(value: T)

  /** A request-body field as the handlers see it: `undefined`, a falsy value (`''`, `null`)
      or a truthy value. Several handlers treat the first two differently. */
  datatype Field<+T> = Absent | Empty | Given(value: T)

  /** Why a handler refused a request. The constructor names follow the source's messages. */
  datatype Reason =
    | SessionNotFound        // 'Votación no encontrada'
    | SessionNotActive       // 'La votación no está activa'
    | SessionAlreadyStarted  // 'La votación ya ha sido iniciada o finalizada'
    | SessionHasBallots      // 'No se puede modificar una votación que ya ha comenzado o finalizado'
    | EndNotAfterStart       // 'La fecha de fin debe ser posterior a la fecha de inicio'
    | OptionNotFound         // 'Opción no encontrada en esta votación'
    | NoDwellingAssigned     // 'No tienes una vivienda asignada para poder votar'
    | NoVotingRight          // 'Tu vivienda no tiene derecho a voto'
    | AlreadyVoted           // 'Tu vivienda ya ha emitido un voto en esta votación'
    | NoCommunityAssigned    // 'No tienes una comunidad asignada ...' / 'No perteneces a ninguna comunidad'
    | CommunityRequired      // 'Debes especificar una comunidad' / 'La comunidad es obligatoria'
    | OtherCommunity         // creating or touching records of another community
    | Forbidden              // role or ownership check failed
    | MissingFields          // 'El número de puerta y coeficiente son obligatorios'
    | DuplicateDoor          // 'Ya existe una vivienda con el número de puerta ...'
    | BadCoefficient         // 'El coeficiente debe ser un número mayor que 0'
    | CoefficientOverflow    // 'La suma de coeficientes excedería el 100%'
    | DwellingNotFound
    | UserNotFound
    | UserInOtherCommunity   // 'El usuario pertenece a otra comunidad'
    | CommunityNotFound
    | DuplicateCif
    | CodeRequired           // 'El código de la comunidad es obligatorio'
    | InvalidCode            // 'Código de comunidad no válido'
    | AlreadyMember          // 'Ya perteneces a una comunidad'
    | EmailTaken             // 'El email ya está registrado'
    | InvalidDwellingId      // 'ID de vivienda no válido'
    | ShortPassword          // 'La contraseña debe tener al menos 6 caracteres'
    | NotAuthenticated       // 'No estás autorizado para acceder a esta ruta'
    | SchemaValidation       // a Mongoose ValidationError raised by create/save
    | DuplicateKey           // a Mongo E11000 error raised by a unique index
    | TypeErrorThrown        // a JavaScript TypeError caught by the handler

  /** `next(new ErrorHandler(message, status))`; schema and index errors carry the status
      the production error middleware gives them. */
  datatype Failure = Failure(status: nat, reason: Reason)

  datatype Result<+T> = Ok(value: T) | Err(failure: Failure)

  function Fail<T>(status: nat, reason: Reason): (r: Result<T>)
    ensures r.Err? && r.failure.status == status && r.failure.reason == reason
  {
    Err(Failure(status, reason))
  }

  /** Number of elements of `s` satisfying `p`: the `.filter(p).length` idiom. */
  function CountWhere<T>(s: seq<T>, p: T -> bool): (n: nat)
    ensures n <= |s|
  {
    if s == [] then 0 else (if p(s[0]) then 1 else 0) + CountWhere(s[1..], p)
  }

  /** `Array.prototype.filter`. */
  function Filter<T>(s: seq<T>, p: T -> bool): (r: seq<T>)
    ensures |r| == CountWhere(s, p)
    ensures forall x :: x in r ==> x in s && p(x)
    ensures forall x :: x in s && p(x) ==> x in r
  {
    if s == [] then [] else (if p(s[0]) then [s[0]] else []) + Filter(s[1..], p)
  }

  /** Filtering commutes with concatenation, so `Filter` keeps the original order. */
  lemma {:induction false} FilterAppend<T>(a: seq<T>, b: seq<T>, p: T -> bool)
    ensures Filter(a + b, p) == Filter(a, p) + Filter(b, p)
  {
    if a != [] {
      assert (a + b)[1..] == a[1..] + b;
      FilterAppend(a[1..], b, p);
    } else {
      assert a + b == b;
    }
  }

  lemma {:induction false} CountWhereAppend<T>(a: seq<T>, b: seq<T>, p: T -> bool)
    ensures CountWhere(a + b, p) == CountWhere(a, p) + CountWhere(b, p)
  {
    if a != [] {
      assert (a + b)[1..] == a[1..] + b;
      CountWhereAppend(a[1..], b, p);
    } else {
      assert a + b == b;
    }
  }

  /** Counting under a weaker predicate never gives less. */
  lemma {:induction false} CountWhereMono<T>(s: seq<T>, p: T -> bool, q: T -> bool)
    requires forall x :: x in s && p(x) ==> q(x)
    ensures CountWhere(s, p) <= CountWhere(s, q)
  {
    if s != [] {
      CountWhereMono(s[1..], p, q);
    }
  }

  /** Predicates that agree on the elements give the same count. */
  lemma {:induction false} CountWhereExt<T>(s: seq<T>, p: T -> bool, q: T -> bool)
    requires forall x :: x in s ==> p(x) == q(x)
    ensures CountWhere(s, p) == CountWhere(s, q)
  {
    if s != [] {
      CountWhereExt(s[1..], p, q);
    }
  }

  /** Two predicates that partition the elements split the count. */
  lemma {:induction false} CountWhereSplit<T>(s: seq<T>, p: T -> bool, q: T -> bool)
    requires forall x :: p(x) != q(x)
    ensures CountWhere(s, p) + CountWhere(s, q) == |s|
  {
    if s != [] {
      CountWhereSplit(s[1..], p, q);
    }
  }
}

/** The array updates the handlers issue through Mongo: `$addToSet` and `$pull`. */
module Arrays {
  import opened Common

  /** `$addToSet`: append `x` unless it is already present. */
  function AddToSet(s: seq<Id>, x: Id): (r: seq<Id>)
    ensures x in r
    ensures forall y :: y in r <==> y in s || y == x
    ensures x in s ==> r == s
    ensures x !in s ==> r == s + [x]
  {
    if x in s then s else s + [x]
  }

  /** `$pull`: remove every occurrence of `x`, keeping the order of the rest. */
  function Pull(s: seq<Id>, x: Id): (r: seq<Id>)
    ensures x !in r
    ensures forall y :: y in r <==> y in s && y != x
    ensures |r| <= |s|
  {
    if s == [] then [] else (if s[0] == x then [] else [s[0]]) + Pull(s[1..], x)
  }

  /** Adding then pulling the same id restores a list that did not hold it. */
  lemma {:induction false} PullAddToSet(s: seq<Id>, x: Id)
    requires x !in s
    ensures Pull(AddToSet(s, x), x) == s
  {
    PullAbsent(s, x);
    PullAppend(s, [x], x);
  }

  lemma {:induction false} PullAbsent(s: seq<Id>, x: Id)
    requires x !in s
    ensures Pull(s, x) == s
  {
    if s != [] {
      PullAbsent(s[1..], x);
    }
  }

  lemma {:induction false} PullAppend(a: seq<Id>, b: seq<Id>, x: Id)
    ensures Pull(a + b, x) == Pull(a, x) + Pull(b, x)
  {
    if a == [] {
      assert a + b == b;
    } else {
      var cabeza := if a[0] == x then [] else [a[0]];
      assert (a + b)[0] == a[0] && (a + b)[1..] == a[1..] + b;
      assert Pull(a + b, x) == cabeza + Pull(a[1..] + b, x);
      PullAppend(a[1..], b, x);
      assert Pull(a, x) == cabeza + Pull(a[1..], x);
    }
  }

  /** `ids.filter(id => !other.includes(id))`: the set difference the community update uses. */
  function Minus(s: seq<Id>, other: seq<Id>): (r: seq<Id>)
    ensures forall y :: y in r <==> y in s && y !in other
    ensures |r| <= |s|
  {
    if s == [] then [] else (if s[0] in other then [] else [s[0]]) + Minus(s[1..], other)
  }
}
