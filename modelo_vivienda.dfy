/** The dwelling schema and its unique (numeroPuerta, comunidad) index. */
module ModeloVivienda {
  import opened Common
  import Texto
  import Arrays

  datatype Vivienda = Vivienda(
    numeroPuerta: string,
    coeficiente: real,
    derechoVoto: bool,
    habitantes: seq<Id>,
    comunidad: Id)

  /** Schema validation: a non-blank trimmed door number and a coefficient of at least 0. */
  predicate EsValida(v: Vivienda)
  {
    v.numeroPuerta != [] && v.numeroPuerta == Texto.Trim(v.numeroPuerta) && v.coeficiente >= 0.0
  }

  /**
   * Saving (create, or update with validators): the trim setter, then validation. The schema
   * only asks for a coefficient of at least 0; the stricter "greater than 0" lives in the
   * controller.
   */
  function Guardar(v: Vivienda): (r: Result<Vivienda>)
    ensures r.Ok? <==> Texto.Trim(v.numeroPuerta) != [] && v.coeficiente >= 0.0
    ensures r.Ok? ==> EsValida(r.value) && r.value == v.(numeroPuerta := Texto.Trim(v.numeroPuerta))
    ensures r.Err? ==> r.failure == Failure(400, SchemaValidation)
  {
    Texto.TrimIdempotent(v.numeroPuerta);
    var n := v.(numeroPuerta := Texto.Trim(v.numeroPuerta));
    if EsValida(n) then Ok(n) else Fail(400, SchemaValidation)
  }

  /** `derechoVoto` defaults to true when not supplied. */
  function DerechoVotoPorDefecto(d: Option<bool>): (r: bool)
    ensures d.None? ==> r
    ensures d.Some? ==> r == d.value
  {
    if d.Some? then d.value else true
  }

  /** The virtual `cantidadHabitantes`: the number of residents listed. */
  function CantidadHabitantes(v: Vivienda): (n: nat)
    ensures n == |v.habitantes|
  {
    |v.habitantes|
  }

  /** Adding a resident set-wise grows the count by one exactly when they were not listed. */
  lemma CantidadTrasAlta(v: Vivienda, u: Id)
    ensures u in v.habitantes ==> CantidadHabitantes(v.(habitantes := Arrays.AddToSet(v.habitantes, u))) == CantidadHabitantes(v)
    ensures u !in v.habitantes ==> CantidadHabitantes(v.(habitantes := Arrays.AddToSet(v.habitantes, u))) == CantidadHabitantes(v) + 1
  {
  }

  /** Whether a dwelling other than `excepto` already uses this door in community `c`. */
  predicate PuertaOcupada(m: map<Id, Vivienda>, puerta: string, c: Id, excepto: Option<Id>)
  {
    exists k :: k in m && Some(k) != excepto && m[k].numeroPuerta == puerta && m[k].comunidad == c
  }

  /** The index holds: door numbers are unique within each community. */
  predicate PuertasUnicas(m: map<Id, Vivienda>)
  {
    forall a, b :: a in m && b in m && m[a].numeroPuerta == m[b].numeroPuerta && m[a].comunidad == m[b].comunidad ==> a == b
  }

  /**
   * Writing dwelling `id` under the index: refused with a duplicate-key error (400) when
   * another dwelling of the same community has the same door number.
   */
  function Escribir(m: map<Id, Vivienda>, id: Id, v: Vivienda): (r: Result<map<Id, Vivienda>>)
    ensures r.Ok? <==> !PuertaOcupada(m, v.numeroPuerta, v.comunidad, Some(id))
    ensures r.Ok? ==> r.value == m[id := v]
    ensures r.Err? ==> r.failure == Failure(400, DuplicateKey)
  {
    if PuertaOcupada(m, v.numeroPuerta, v.comunidad, Some(id)) then Fail(400, DuplicateKey) else Ok(m[id := v])
  }

  /** Every write the index accepts keeps door numbers unique. */
  lemma EscribirConservaIndice(m: map<Id, Vivienda>, id: Id, v: Vivienda)
    requires PuertasUnicas(m)
    ensures Escribir(m, id, v).Ok? ==> PuertasUnicas(Escribir(m, id, v).value)
  {
    if Escribir(m, id, v).Ok? {
      var m' := m[id := v];
      forall a, b | a in m' && b in m'
        ensures m'[a].numeroPuerta == m'[b].numeroPuerta && m'[a].comunidad == m'[b].comunidad ==> a == b
      {
        if a != id {
          assert m'[a] == m[a];
        }
        if b != id {
          assert m'[b] == m[b];
        }
      }
    }
  }

  /** The same door number may be used in two different communities. */
  lemma MismaPuertaOtraComunidad(m: map<Id, Vivienda>, id: Id, v: Vivienda, c: Id)
    requires id !in m && c != v.comunidad
    requires Escribir(m, id, v).Ok?
    requires !PuertaOcupada(m, v.numeroPuerta, c, None)
    ensures Escribir(m[id := v], id + 1, v.(comunidad := c)).Ok?
  {
    var m' := m[id := v];
    forall k | k in m'
      ensures !(m'[k].numeroPuerta == v.numeroPuerta && m'[k].comunidad == c)
    {
      if k != id {
        assert m'[k] == m[k];
      }
    }
  }
}
