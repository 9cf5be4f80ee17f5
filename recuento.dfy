/**
 * The tally of a session: one row per option, per-dwelling counts or coefficient sums, the
 * valid-ballot counter, percentages, participation and the descending sort.
 */
module Recuento {
  import opened Common
  import opened ModeloVotacion

  /**
   * A ballot as the tally reads it: the chosen option, and the coefficient of the dwelling
   * that cast it, or `None` when that dwelling no longer exists (the populate yields null).
   */
  datatype Papeleta = Papeleta(opcion: Id, coeficiente: Option<real>)

  /** One row of the response: option id, label, count, percentage, coefficient sum. */
  datatype Fila = Fila(id: Id, opcion: string, votos: nat, porcentaje: real, coeficiente: real)

  datatype Resultados = Resultados(
    sistemaRecuento: SistemaRecuento,
    totalVotos: nat,
    participacion: real,
    viviendasConDerechoVoto: nat,
    totalViviendas: nat,
    resultados: seq<Fila>)

  // ---------------------------------------------------------------------------------------
  // Specification

  predicate Distintos(s: seq<Id>)
  {
    forall i, j :: 0 <= i < j < |s| ==> s[i] != s[j]
  }

  /**
   * The keys of the `resultados` dictionary in insertion order: each option id once, at the
   * position of its first occurrence.
   */
  function Claves(os: seq<Opcion>): (r: seq<Id>)
    ensures Distintos(r)
    ensures forall k :: k in r <==> exists o :: o in os && o.id == k
  {
    if os == [] then []
    else
      var c := Claves(os[..|os| - 1]);
      var o := os[|os| - 1];
      assert forall x :: x in os <==> x in os[..|os| - 1] || x == o;
      if o.id in c then c else c + [o.id]
  }

  /** The label stored under key `k`: the last option with that id overwrites earlier ones. */
  function TextoDe(os: seq<Opcion>, k: Id): string
  {
    if os == [] then []
    else if os[|os| - 1].id == k then os[|os| - 1].texto
    else TextoDe(os[..|os| - 1], k)
  }

  /** Ballots for option `k`. */
  function VotosPara(ps: seq<Papeleta>, k: Id): nat
  {
    if ps == [] then 0
    else VotosPara(ps[..|ps| - 1], k) + (if ps[|ps| - 1].opcion == k then 1 else 0)
  }

  /** The coefficients of the existing dwellings whose ballot chose option `k`. */
  function CoefPara(ps: seq<Papeleta>, k: Id): real
  {
    if ps == [] then 0.0
    else
      var p := ps[|ps| - 1];
      CoefPara(ps[..|ps| - 1], k) + (if p.opcion == k && p.coeficiente.Some? then p.coeficiente.value else 0.0)
  }

  /** Whether a ballot is counted: a known option, and in coefficient mode an existing dwelling. */
  predicate Cuenta(p: Papeleta, ks: seq<Id>, s: SistemaRecuento)
  {
    p.opcion in ks && (s == PorCoeficiente ==> p.coeficiente.Some?)
  }

  /** `votosValidos`: the number of ballots counted. */
  function Validos(ps: seq<Papeleta>, ks: seq<Id>, s: SistemaRecuento): nat
  {
    if ps == [] then 0
    else Validos(ps[..|ps| - 1], ks, s) + (if Cuenta(ps[|ps| - 1], ks, s) then 1 else 0)
  }

  function SumaVotos(ps: seq<Papeleta>, ks: seq<Id>): nat
  {
    if ks == [] then 0 else SumaVotos(ps, ks[..|ks| - 1]) + VotosPara(ps, ks[|ks| - 1])
  }

  /** The total coefficient cast over the listed options. */
  function SumaCoef(ps: seq<Papeleta>, ks: seq<Id>): real
  {
    if ks == [] then 0.0 else SumaCoef(ps, ks[..|ks| - 1]) + CoefPara(ps, ks[|ks| - 1])
  }

  /** `a / b * 100`, or 0 when the divisor is not positive. */
  function Porcentaje(a: real, b: real): real
  {
    if b > 0.0 then a / b * 100.0 else 0.0
  }

  /** The percentage pass applied to one row. */
  function ConPorcentaje(f: Fila, s: SistemaRecuento, validos: nat, total: real): Fila
  {
    if s == PorVivienda then f.(porcentaje := Porcentaje(f.votos as real, validos as real))
    else f.(porcentaje := Porcentaje(f.coeficiente, total))
  }

  /** The row the tally reports for option `k`, before sorting. */
  function FilaDe(os: seq<Opcion>, ps: seq<Papeleta>, s: SistemaRecuento, k: Id): Fila
  {
    var ks := Claves(os);
    ConPorcentaje(FilaContada(os, ps, s, k), s, Validos(ps, ks, s), SumaCoef(ps, ks))
  }

  /** A row after the counting loop over ballots `ps`. */
  function FilaContada(os: seq<Opcion>, ps: seq<Papeleta>, s: SistemaRecuento, k: Id): Fila
  {
    Fila(k, TextoDe(os, k), if s == PorVivienda then VotosPara(ps, k) else 0, 0.0,
      if s == PorCoeficiente then CoefPara(ps, k) else 0.0)
  }

  function FilasDe(os: seq<Opcion>, ps: seq<Papeleta>, s: SistemaRecuento, ks: seq<Id>): (r: seq<Fila>)
    ensures |r| == |ks|
    ensures forall i :: 0 <= i < |ks| ==> r[i] == FilaDe(os, ps, s, ks[i])
  {
    if ks == [] then [] else FilasDe(os, ps, s, ks[..|ks| - 1]) + [FilaDe(os, ps, s, ks[|ks| - 1])]
  }

  /** The rows in dictionary order, before sorting. */
  function Filas(os: seq<Opcion>, ps: seq<Papeleta>, s: SistemaRecuento): seq<Fila>
  {
    FilasDe(os, ps, s, Claves(os))
  }

  /** The sort key: votes per dwelling, or the coefficient sum. */
  function Clave(f: Fila, s: SistemaRecuento): real
  {
    if s == PorVivienda then f.votos as real else f.coeficiente
  }

  predicate Descendente(fs: seq<Fila>, s: SistemaRecuento)
  {
    forall i, j :: 0 <= i < j < |fs| ==> Clave(fs[i], s) >= Clave(fs[j], s)
  }

  /** The rows of `fs` whose sort key is `x`, in their order in `fs`. */
  function Empatadas(fs: seq<Fila>, x: real, s: SistemaRecuento): seq<Fila>
  {
    if fs == [] then []
    else Empatadas(fs[..|fs| - 1], x, s) + (if Clave(fs[|fs| - 1], s) == x then [fs[|fs| - 1]] else [])
  }

  /**
   * `fs` is `ref` sorted the way a stable sort sorts it: the same rows, descending by the
   * key, and rows with equal keys in the order they had in `ref`.
   */
  ghost predicate Ordenadas(fs: seq<Fila>, ref: seq<Fila>, s: SistemaRecuento)
  {
    && multiset(fs) == multiset(ref)
    && Descendente(fs, s)
    && forall x :: Empatadas(fs, x, s) == Empatadas(ref, x, s)
  }

  /** Participation: all ballots over eligible dwellings, times 100, or 0 without eligible dwellings. */
  function Participacion(totalVotos: nat, elegibles: nat): (r: real)
    ensures elegibles == 0 ==> r == 0.0
    ensures elegibles > 0 ==> r * (elegibles as real) == (totalVotos as real) * 100.0
    ensures totalVotos <= elegibles ==> 0.0 <= r <= 100.0
  {
    if elegibles > 0 then (totalVotos as real) / (elegibles as real) * 100.0 else 0.0
  }

  // ---------------------------------------------------------------------------------------
  // The tally loops

  /** The zero row of option key `k` after the initialisation loop. */
  function FilaInicial(os: seq<Opcion>, k: Id): Fila
  {
    Fila(k, TextoDe(os, k), 0, 0.0, 0.0)
  }

  /** The initialisation loop: a zero row under each option id, the last label winning. */
  method Inicializar(os: seq<Opcion>) returns (res: map<Id, Fila>, orden: seq<Id>)
    ensures orden == Claves(os)
    ensures forall k :: k in res <==> k in orden
    ensures forall k :: k in res ==> res[k] == FilaInicial(os, k)
  {
    res := map[];
    orden := [];
    for i := 0 to |os|
      invariant orden == Claves(os[..i])
      invariant forall k :: k in res <==> k in orden
      invariant forall k :: k in res ==> res[k] == FilaInicial(os[..i], k)
    {
      assert os[..i + 1][..i] == os[..i];
      var o := os[i];
      if o.id !in res {
        orden := orden + [o.id];
      }
      res := res[o.id := Fila(o.id, o.texto, 0, 0.0, 0.0)];
    }
    assert os[..|os|] == os;
  }

  /** The counting loop: each counted ballot adds to its option and to `votosValidos`. */
  method Sumar(os: seq<Opcion>, ps: seq<Papeleta>, s: SistemaRecuento, res0: map<Id, Fila>, orden: seq<Id>)
    returns (res: map<Id, Fila>, validos: nat)
    requires forall k :: k in res0 <==> k in orden
    requires forall k :: k in res0 ==> res0[k] == FilaInicial(os, k)
    ensures forall k :: k in res <==> k in orden
    ensures validos == Validos(ps, orden, s)
    ensures forall k :: k in res ==> res[k] == FilaContada(os, ps, s, k)
  {
    res := res0;
    validos := 0;
    for j := 0 to |ps|
      invariant forall k :: k in res <==> k in orden
      invariant validos == Validos(ps[..j], orden, s)
      invariant forall k :: k in res ==> res[k] == FilaContada(os, ps[..j], s, k)
    {
      assert ps[..j + 1][..j] == ps[..j];
      var p := ps[j];
      if s == PorVivienda {
        if p.opcion in res {
          res := res[p.opcion := res[p.opcion].(votos := res[p.opcion].votos + 1)];
          validos := validos + 1;
        }
      } else {
        if p.opcion in res && p.coeficiente.Some? {
          res := res[p.opcion := res[p.opcion].(coeficiente := res[p.opcion].coeficiente + p.coeficiente.value)];
          validos := validos + 1;
        }
      }
    }
    assert ps[..|ps|] == ps;
  }

  /** The `reduce` over the rows: the total coefficient. */
  method Total(ps: seq<Papeleta>, res: map<Id, Fila>, orden: seq<Id>) returns (total: real)
    requires forall k :: k in orden ==> k in res && res[k].coeficiente == CoefPara(ps, k)
    ensures total == SumaCoef(ps, orden)
  {
    total := 0.0;
    for i := 0 to |orden|
      invariant total == SumaCoef(ps, orden[..i])
    {
      assert orden[..i + 1][..i] == orden[..i];
      total := total + res[orden[i]].coeficiente;
    }
    assert orden[..|orden|] == orden;
  }

  /** The percentage loop over the dictionary keys. */
  method Porcentajes(res: map<Id, Fila>, orden: seq<Id>, s: SistemaRecuento, validos: nat, total: real)
    returns (filas: seq<Fila>)
    requires forall k :: k in orden ==> k in res && res[k].porcentaje == 0.0
    ensures |filas| == |orden|
    ensures forall i :: 0 <= i < |orden| ==> filas[i] == ConPorcentaje(res[orden[i]], s, validos, total)
  {
    filas := [];
    for i := 0 to |orden|
      invariant |filas| == i
      invariant forall n :: 0 <= n < i ==> filas[n] == ConPorcentaje(res[orden[n]], s, validos, total)
    {
      var f := res[orden[i]];
      if s == PorVivienda && validos > 0 {
        f := f.(porcentaje := (f.votos as real) / (validos as real) * 100.0);
      } else if s == PorCoeficiente && total > 0.0 {
        f := f.(porcentaje := f.coeficiente / total * 100.0);
      }
      filas := filas + [f];
    }
  }

  /**
   * The counting loops: initialise a zero row per option key, add each counted ballot, then
   * fill in the percentages. Returns the rows in dictionary order and `votosValidos`.
   */
  method Contar(os: seq<Opcion>, ps: seq<Papeleta>, s: SistemaRecuento) returns (filas: seq<Fila>, validos: nat)
    ensures validos == Validos(ps, Claves(os), s)
    ensures filas == Filas(os, ps, s)
  {
    var res0, orden := Inicializar(os);
    var res;
    res, validos := Sumar(os, ps, s, res0, orden);
    var total: real := 0.0;
    if s == PorCoeficiente {
      total := Total(ps, res, orden);
    }
    filas := Porcentajes(res, orden, s, validos, total);
    ghost var esperadas := Filas(os, ps, s);
    assert |filas| == |esperadas|;
    forall i | 0 <= i < |filas| ensures filas[i] == esperadas[i] {
      assert res[orden[i]] == FilaContada(os, ps, s, orden[i]);
    }
  }

  /** Descending except possibly around position `j`, whose element beats everything after it. */
  predicate CasiDescendente(b: seq<Fila>, i: int, j: int, s: SistemaRecuento)
    requires 0 <= j <= i < |b|
  {
    && (forall p, q :: 0 <= p < q <= i && p != j && q != j ==> Clave(b[p], s) >= Clave(b[q], s))
    && (forall q :: j < q <= i ==> Clave(b[q], s) < Clave(b[j], s))
  }

  /** Swapping the inserted element one place left keeps the insertion invariant. */
  lemma IntercambioConserva(b: seq<Fila>, i: int, j: int, s: SistemaRecuento)
    requires 0 < j <= i < |b|
    requires CasiDescendente(b, i, j, s)
    requires Clave(b[j - 1], s) < Clave(b[j], s)
    ensures CasiDescendente(b[j - 1 := b[j]][j := b[j - 1]], i, j - 1, s)
  {
  }

  lemma {:induction false} EmpatadasConcat(u: seq<Fila>, v: seq<Fila>, x: real, s: SistemaRecuento)
    ensures Empatadas(u + v, x, s) == Empatadas(u, x, s) + Empatadas(v, x, s)
  {
    if v == [] {
      assert u + v == u;
    } else {
      var w := v[..|v| - 1];
      assert (u + v)[..|u + v| - 1] == u + w;
      assert (u + v)[|u + v| - 1] == v[|v| - 1];
      EmpatadasConcat(u, w, x, s);
    }
  }

  /** Two rows with different keys, in either order, give the same rows of each key. */
  lemma ParEstable(p: Fila, q: Fila, x: real, s: SistemaRecuento)
    requires Clave(p, s) != Clave(q, s)
    ensures Empatadas([p, q], x, s) == Empatadas([q, p], x, s)
  {
    assert [p, q][..1] == [p] && [q, p][..1] == [q];
    assert [p][..0] == [] && [q][..0] == [];
  }

  /** Swapping two neighbours with different keys leaves the rows of every key in order. */
  lemma IntercambioEstable(b: seq<Fila>, j: int, s: SistemaRecuento)
    requires 0 < j < |b| && Clave(b[j - 1], s) != Clave(b[j], s)
    ensures forall x :: Empatadas(b[j - 1 := b[j]][j := b[j - 1]], x, s) == Empatadas(b, x, s)
  {
    var c := b[j - 1 := b[j]][j := b[j - 1]];
    var (ini, fin) := (b[..j - 1], b[j + 1..]);
    var (p, q) := (b[j - 1], b[j]);
    assert b == (ini + [p, q]) + fin;
    assert c == (ini + [q, p]) + fin;
    forall x ensures Empatadas(c, x, s) == Empatadas(b, x, s) {
      EmpatadasConcat(ini + [p, q], fin, x, s);
      EmpatadasConcat(ini + [q, p], fin, x, s);
      EmpatadasConcat(ini, [p, q], x, s);
      EmpatadasConcat(ini, [q, p], x, s);
      ParEstable(p, q, x, s);
    }
  }

  /** When the inserted element stops, the prefix is descending. */
  lemma ParadaOrdena(b: seq<Fila>, i: int, j: int, s: SistemaRecuento)
    requires 0 <= j <= i < |b|
    requires CasiDescendente(b, i, j, s)
    requires j == 0 || Clave(b[j - 1], s) >= Clave(b[j], s)
    ensures forall p, q :: 0 <= p < q <= i ==> Clave(b[p], s) >= Clave(b[q], s)
  {
  }

  /** One insertion step: move `a[i]` left past every smaller key. */
  method Insertar(a: array<Fila>, i: nat, s: SistemaRecuento)
    requires i < a.Length
    requires forall p, q :: 0 <= p < q < i ==> Clave(a[p], s) >= Clave(a[q], s)
    modifies a
    ensures forall p, q :: 0 <= p < q <= i ==> Clave(a[p], s) >= Clave(a[q], s)
    ensures multiset(a[..]) == multiset(old(a[..]))
    ensures forall x :: Empatadas(a[..], x, s) == Empatadas(old(a[..]), x, s)
  {
    var j := i;
    while j > 0 && Clave(a[j - 1], s) < Clave(a[j], s)
      invariant 0 <= j <= i
      invariant multiset(a[..]) == multiset(old(a[..]))
      invariant forall x :: Empatadas(a[..], x, s) == Empatadas(old(a[..]), x, s)
      invariant CasiDescendente(a[..], i, j, s)
    {
      IntercambioConserva(a[..], i, j, s);
      IntercambioEstable(a[..], j, s);
      Intercambiar(a, j);
      j := j - 1;
    }
    ParadaOrdena(a[..], i, j, s);
  }

  /** Swap `a[j - 1]` and `a[j]`; the rows themselves are unchanged. */
  method Intercambiar(a: array<Fila>, j: nat)
    requires 0 < j < a.Length
    modifies a
    ensures a[..] == old(a[..])[j - 1 := old(a[j])][j := old(a[j - 1])]
    ensures multiset(a[..]) == multiset(old(a[..]))
  {
    a[j - 1], a[j] := a[j], a[j - 1];
  }

  /**
   * `resultadosArray.sort`: descending by the sort key, in place; the sort is stable, as
   * `Array.prototype.sort` is, so rows with equal keys keep their order.
   */
  method Ordenar(a: array<Fila>, s: SistemaRecuento)
    modifies a
    ensures Ordenadas(a[..], old(a[..]), s)
  {
    for i := 0 to a.Length
      invariant forall p, q :: 0 <= p < q < i ==> Clave(a[p], s) >= Clave(a[q], s)
      invariant multiset(a[..]) == multiset(old(a[..]))
      invariant forall x :: Empatadas(a[..], x, s) == Empatadas(old(a[..]), x, s)
    {
      Insertar(a, i, s);
    }
  }

  /** The full tally: count, then sort the rows stably. */
  method Tally(os: seq<Opcion>, ps: seq<Papeleta>, s: SistemaRecuento) returns (filas: seq<Fila>, validos: nat)
    ensures validos == Validos(ps, Claves(os), s)
    ensures Ordenadas(filas, Filas(os, ps, s), s)
  {
    var sinOrden;
    sinOrden, validos := Contar(os, ps, s);
    var a := Volcar(sinOrden);
    Ordenar(a, s);
    filas := a[..];
  }

  /** `Object.values(resultados)`: the rows in a fresh array, in the same order. */
  method Volcar(fs: seq<Fila>) returns (a: array<Fila>)
    ensures fresh(a) && a[..] == fs
  {
    a := new Fila[|fs|](i requires 0 <= i < |fs| => fs[i]);
  }

  // ---------------------------------------------------------------------------------------
  // Properties of the tally

  /** The sum of a column of percentages. */
  function SumaPorcentajes(fs: seq<Fila>): real
  {
    if fs == [] then 0.0 else SumaPorcentajes(fs[..|fs| - 1]) + fs[|fs| - 1].porcentaje
  }

  /** One more ballot adds one to the total over distinct keys exactly when it names one of them. */
  lemma {:induction false} SumaVotosUnaMas(ps: seq<Papeleta>, p: Papeleta, ks: seq<Id>)
    requires Distintos(ks)
    ensures SumaVotos(ps + [p], ks) == SumaVotos(ps, ks) + (if p.opcion in ks then 1 else 0)
  {
    assert (ps + [p])[..|ps + [p]| - 1] == ps;
    if ks != [] {
      var ini := ks[..|ks| - 1];
      assert forall x :: x in ks <==> x in ini || x == ks[|ks| - 1];
      SumaVotosUnaMas(ps, p, ini);
    }
  }

  /** Per-dwelling mode: the option counts add up to `votosValidos`. */
  lemma {:induction false} SumaVotosEsValidos(ps: seq<Papeleta>, ks: seq<Id>)
    requires Distintos(ks)
    ensures SumaVotos(ps, ks) == Validos(ps, ks, PorVivienda)
  {
    if ps == [] {
      SumaVotosCero(ks);
    } else {
      var ini := ps[..|ps| - 1];
      assert ini + [ps[|ps| - 1]] == ps;
      SumaVotosEsValidos(ini, ks);
      SumaVotosUnaMas(ini, ps[|ps| - 1], ks);
    }
  }

  lemma {:induction false} SumaVotosCero(ks: seq<Id>)
    ensures SumaVotos([], ks) == 0
  {
    if ks != [] {
      SumaVotosCero(ks[..|ks| - 1]);
    }
  }

  lemma ReparteCien(a: real, b: real, v: real)
    requires v > 0.0
    ensures a / v * 100.0 + b / v * 100.0 == (a + b) / v * 100.0
  {
  }

  /** One induction step of the percentage sums, on plain reals. */
  lemma SumaParcial(previa: real, ultimo: real, a: real, b: real, c: real, v: real)
    requires v > 0.0 && c == a + b
    requires previa == a / v * 100.0 && ultimo == b / v * 100.0
    ensures previa + ultimo == c / v * 100.0
  {
    ReparteCien(a, b, v);
  }

  lemma {:induction false} SumaPorcentajesVivienda(os: seq<Opcion>, ps: seq<Papeleta>, ks: seq<Id>)
    requires Validos(ps, Claves(os), PorVivienda) > 0
    ensures SumaPorcentajes(FilasDe(os, ps, PorVivienda, ks))
      == (SumaVotos(ps, ks) as real) / (Validos(ps, Claves(os), PorVivienda) as real) * 100.0
  {
    var v := Validos(ps, Claves(os), PorVivienda) as real;
    if ks == [] {
      assert 0.0 / v == 0.0;
    } else {
      var ini := ks[..|ks| - 1];
      var k := ks[|ks| - 1];
      var fs := FilasDe(os, ps, PorVivienda, ks);
      assert fs[..|fs| - 1] == FilasDe(os, ps, PorVivienda, ini);
      assert fs[|fs| - 1].porcentaje == (VotosPara(ps, k) as real) / v * 100.0;
      assert SumaPorcentajes(fs) == SumaPorcentajes(FilasDe(os, ps, PorVivienda, ini)) + fs[|fs| - 1].porcentaje;
      SumaPorcentajesVivienda(os, ps, ini);
      assert SumaVotos(ps, ks) as real == SumaVotos(ps, ini) as real + VotosPara(ps, k) as real;
      SumaParcial(SumaPorcentajes(FilasDe(os, ps, PorVivienda, ini)), fs[|fs| - 1].porcentaje,
        SumaVotos(ps, ini) as real, VotosPara(ps, k) as real, SumaVotos(ps, ks) as real, v);
    }
  }

  /**
   * Per-dwelling mode: whenever some ballot is valid, the percentages of the rows add up to
   * 100 (exactly, before the two-decimal rounding of the response).
   */
  lemma PorcentajesSumanCienVivienda(os: seq<Opcion>, ps: seq<Papeleta>)
    requires Validos(ps, Claves(os), PorVivienda) > 0
    ensures SumaPorcentajes(Filas(os, ps, PorVivienda)) == 100.0
  {
    var ks := Claves(os);
    var v := Validos(ps, ks, PorVivienda) as real;
    SumaPorcentajesVivienda(os, ps, ks);
    SumaVotosEsValidos(ps, ks);
    UnoPorCien(v);
  }

  lemma UnoPorCien(v: real)
    requires v > 0.0
    ensures v / v * 100.0 == 100.0
  {
  }

  lemma CocienteAcotado(a: real, v: real)
    requires 0.0 <= a <= v && v > 0.0
    ensures 0.0 <= a / v * 100.0 <= 100.0
  {
    assert a / v <= 1.0 by {
      assert a / v * v == a;
    }
  }

  lemma {:induction false} SumaPorcentajesCoef(os: seq<Opcion>, ps: seq<Papeleta>, ks: seq<Id>)
    requires SumaCoef(ps, Claves(os)) > 0.0
    ensures SumaPorcentajes(FilasDe(os, ps, PorCoeficiente, ks))
      == SumaCoef(ps, ks) / SumaCoef(ps, Claves(os)) * 100.0
  {
    var t := SumaCoef(ps, Claves(os));
    if ks == [] {
      assert 0.0 / t == 0.0;
    } else {
      var ini := ks[..|ks| - 1];
      var k := ks[|ks| - 1];
      var fs := FilasDe(os, ps, PorCoeficiente, ks);
      assert fs[..|fs| - 1] == FilasDe(os, ps, PorCoeficiente, ini);
      assert fs[|fs| - 1].porcentaje == CoefPara(ps, k) / t * 100.0;
      assert SumaPorcentajes(fs) == SumaPorcentajes(FilasDe(os, ps, PorCoeficiente, ini)) + fs[|fs| - 1].porcentaje;
      SumaPorcentajesCoef(os, ps, ini);
      assert SumaCoef(ps, ks) == SumaCoef(ps, ini) + CoefPara(ps, k);
      SumaParcial(SumaPorcentajes(FilasDe(os, ps, PorCoeficiente, ini)), fs[|fs| - 1].porcentaje,
        SumaCoef(ps, ini), CoefPara(ps, k), SumaCoef(ps, ks), t);
    }
  }

  /** Coefficient mode: when some coefficient was cast, the percentages add up to 100. */
  lemma PorcentajesSumanCienCoeficiente(os: seq<Opcion>, ps: seq<Papeleta>)
    requires SumaCoef(ps, Claves(os)) > 0.0
    ensures SumaPorcentajes(Filas(os, ps, PorCoeficiente)) == 100.0
  {
    var t := SumaCoef(ps, Claves(os));
    SumaPorcentajesCoef(os, ps, Claves(os));
    UnoPorCien(t);
  }

  /** The coefficients carried by the ballots the coefficient tally counts. */
  function CoefValido(ps: seq<Papeleta>, ks: seq<Id>): real
  {
    if ps == [] then 0.0
    else
      var p := ps[|ps| - 1];
      CoefValido(ps[..|ps| - 1], ks) + (if Cuenta(p, ks, PorCoeficiente) then p.coeficiente.value else 0.0)
  }

  lemma {:induction false} SumaCoefUnaMas(ps: seq<Papeleta>, p: Papeleta, ks: seq<Id>)
    requires Distintos(ks)
    ensures SumaCoef(ps + [p], ks)
      == SumaCoef(ps, ks) + (if Cuenta(p, ks, PorCoeficiente) then p.coeficiente.value else 0.0)
  {
    assert (ps + [p])[..|ps + [p]| - 1] == ps;
    if ks != [] {
      var ini := ks[..|ks| - 1];
      assert forall x :: x in ks <==> x in ini || x == ks[|ks| - 1];
      SumaCoefUnaMas(ps, p, ini);
    }
  }

  lemma {:induction false} SumaCoefCero(ks: seq<Id>)
    ensures SumaCoef([], ks) == 0.0
  {
    if ks != [] {
      SumaCoefCero(ks[..|ks| - 1]);
    }
  }

  /**
   * Coefficient mode: the coefficient column adds up to the coefficients of exactly the
   * counted ballots (known option, dwelling still present).
   */
  lemma {:induction false} SumaCoefEsCoefValido(ps: seq<Papeleta>, ks: seq<Id>)
    requires Distintos(ks)
    ensures SumaCoef(ps, ks) == CoefValido(ps, ks)
  {
    if ps == [] {
      SumaCoefCero(ks);
    } else {
      var ini := ps[..|ps| - 1];
      assert ini + [ps[|ps| - 1]] == ps;
      SumaCoefEsCoefValido(ini, ks);
      SumaCoefUnaMas(ini, ps[|ps| - 1], ks);
    }
  }

  /** A known option never has more ballots than were counted. */
  lemma {:induction false} VotosParaAcotados(ps: seq<Papeleta>, ks: seq<Id>, k: Id)
    requires k in ks
    ensures VotosPara(ps, k) <= Validos(ps, ks, PorVivienda)
  {
    if ps != [] {
      VotosParaAcotados(ps[..|ps| - 1], ks, k);
    }
  }

  /** So every per-dwelling percentage lies between 0 and 100. */
  lemma PorcentajeAcotado(os: seq<Opcion>, ps: seq<Papeleta>, i: int)
    requires 0 <= i < |Filas(os, ps, PorVivienda)|
    ensures 0.0 <= Filas(os, ps, PorVivienda)[i].porcentaje <= 100.0
  {
    var ks := Claves(os);
    VotosParaAcotados(ps, ks, ks[i]);
    var v := Validos(ps, ks, PorVivienda);
    var a := VotosPara(ps, ks[i]);
    assert Filas(os, ps, PorVivienda)[i].porcentaje == Porcentaje(a as real, v as real);
    if v > 0 {
      CocienteAcotado(a as real, v as real);
    }
  }

  /** A ballot for an option the session does not offer changes no row and no counter. */
  lemma OpcionDesconocidaIgnorada(os: seq<Opcion>, ps: seq<Papeleta>, p: Papeleta, s: SistemaRecuento)
    requires p.opcion !in Claves(os)
    ensures Validos(ps + [p], Claves(os), s) == Validos(ps, Claves(os), s)
    ensures Filas(os, ps + [p], s) == Filas(os, ps, s)
  {
    var ks := Claves(os);
    assert (ps + [p])[..|ps + [p]| - 1] == ps;
    SumaCoefUnaMas(ps, p, ks);
    var a := Filas(os, ps + [p], s);
    var b := Filas(os, ps, s);
    forall i | 0 <= i < |ks| ensures a[i] == b[i] {
      assert ks[i] != p.opcion;
    }
  }

  /** With no ballots every row is zero: each option starts at 0. */
  lemma SinPapeletas(os: seq<Opcion>, s: SistemaRecuento, i: int)
    requires 0 <= i < |Claves(os)|
    ensures Filas(os, [], s)[i] == Fila(Claves(os)[i], TextoDe(os, Claves(os)[i]), 0, 0.0, 0.0)
  {
    SumaCoefCero(Claves(os));
  }

  /** One row per distinct option id: `resultados` lists every option, voted for or not. */
  lemma UnaFilaPorOpcion(os: seq<Opcion>, ps: seq<Papeleta>, s: SistemaRecuento, o: Opcion)
    requires o in os
    ensures exists i :: 0 <= i < |Filas(os, ps, s)| && Filas(os, ps, s)[i].id == o.id
  {
    var ks := Claves(os);
    assert o.id in ks;
    var i :| 0 <= i < |ks| && ks[i] == o.id;
    assert Filas(os, ps, s)[i].id == o.id;
  }
}
