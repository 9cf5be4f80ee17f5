/**
 * The participation report: one entry per dwelling of the session's community with the
 * ballot it cast, the category each entry is filed under, the filter and the summary counts.
 */
module Informe {
  import opened Common
  import Texto
  import Resultados

  /**
   * The ballot of an entry: its id, the chosen option and its label ('Opción desconocida'
   * if gone), when it was cast, and the user who cast it (`None` once that user is deleted,
   * as the populate yields null).
   */
  datatype VotoInforme = VotoInforme(id: Id, opcionElegida: Id, opcionTexto: string, fechaVoto: Instant,
    usuario: Option<Id>)

  /**
   * One dwelling of the report; `propietario` is the user shown as its owner, `None` for
   * 'No asignado'.
   */
  datatype ViviendaInforme = ViviendaInforme(
    vivienda: Id,
    numeroPuerta: string,
    coeficiente: real,
    propietario: Option<Id>,
    derechoVoto: bool,
    voto: Option<VotoInforme>)

  /** The filter value of `getEstadoVivienda`: 'sin-derecho', 'no-voto', 'a-favor', 'en-contra', 'abstencion', 'otros'. */
  datatype Categoria = SinDerechoVoto | NoVoto | VotoAFavor | VotoEnContra | VotoAbstencion | OtroVoto

  /**
   * `getEstadoVivienda`: a dwelling without the right to vote is filed as such even if it
   * voted; an eligible one without a ballot did not vote; otherwise its ballot's label is read
   * with the label rules of the results view.
   */
  function EstadoVivienda(v: ViviendaInforme): (c: Categoria)
    ensures c == SinDerechoVoto <==> !v.derechoVoto
    ensures c == NoVoto <==> v.derechoVoto && v.voto.None?
    ensures v.derechoVoto && v.voto.Some? ==>
      var rol := Resultados.RolDeTexto(v.voto.value.opcionTexto);
      && (c == VotoAFavor <==> rol == Resultados.Favor)
      && (c == VotoEnContra <==> rol == Resultados.Contra)
      && (c == VotoAbstencion <==> rol == Resultados.Abstencion)
      && (c == OtroVoto <==> rol == Resultados.Otro)
  {
    if !v.derechoVoto then SinDerechoVoto
    else if v.voto.None? then NoVoto
    else
      match Resultados.RolDeTexto(v.voto.value.opcionTexto)
      case Favor => VotoAFavor
      case Contra => VotoEnContra
      case Abstencion => VotoAbstencion
      case Otro => OtroVoto
  }

  /** The filter selector: 'todos' or one category. */
  datatype Filtro = Todos | Solo(categoria: Categoria)

  /** `filtrarViviendas`: everything for 'todos', otherwise the entries of that category. */
  function Filtrar(vs: seq<ViviendaInforme>, f: Filtro): (r: seq<ViviendaInforme>)
    ensures f.Todos? ==> r == vs
    ensures f.Solo? ==> forall x :: x in r <==> x in vs && EstadoVivienda(x) == f.categoria
    ensures |r| <= |vs|
  {
    if f.Todos? then vs else Filter(vs, (x: ViviendaInforme) => EstadoVivienda(x) == f.categoria)
  }

  /** Filtering works entry by entry, so the entries kept stay in their original order. */
  lemma FiltrarConservaOrden(a: seq<ViviendaInforme>, b: seq<ViviendaInforme>, f: Filtro)
    ensures Filtrar(a + b, f) == Filtrar(a, f) + Filtrar(b, f)
  {
    if f.Solo? {
      FilterAppend(a, b, (x: ViviendaInforme) => EstadoVivienda(x) == f.categoria);
    }
  }

  /** The summary's own label tests, applied without the right-to-vote check and independently. */
  predicate PruebaFavor(t: string)
  {
    var l := Texto.Lower(t);
    Texto.Contains(l, "favor") || l == "sí" || l == "si"
  }

  predicate PruebaContra(t: string)
  {
    var l := Texto.Lower(t);
    Texto.Contains(l, "contra") || l == "no"
  }

  predicate PruebaAbstencion(t: string)
  {
    var l := Texto.Lower(t);
    Texto.Contains(l, "abstención") || Texto.Contains(l, "abstencion")
  }

  /** The category's label chain is the summary's tests taken in order, each excluding the earlier. */
  lemma RolPorPruebas(t: string)
    ensures Resultados.RolDeTexto(t) == Resultados.Favor <==> PruebaFavor(t)
    ensures Resultados.RolDeTexto(t) == Resultados.Contra <==> !PruebaFavor(t) && PruebaContra(t)
    ensures Resultados.RolDeTexto(t) == Resultados.Abstencion <==>
      !PruebaFavor(t) && !PruebaContra(t) && PruebaAbstencion(t)
  {
  }

  datatype Resumen = Resumen(
    total: nat,
    conDerechoVoto: nat,
    votaron: nat,
    noVotaron: nat,
    sinDerechoVoto: nat,
    aFavor: nat,
    enContra: nat,
    abstencion: nat)

  /** The `resumen` object: each figure is a count over all entries. */
  function ResumenDe(vs: seq<ViviendaInforme>): Resumen
  {
    Resumen(
      |vs|,
      CountWhere(vs, (v: ViviendaInforme) => v.derechoVoto),
      CountWhere(vs, (v: ViviendaInforme) => v.voto.Some?),
      CountWhere(vs, (v: ViviendaInforme) => v.derechoVoto && v.voto.None?),
      CountWhere(vs, (v: ViviendaInforme) => !v.derechoVoto),
      CountWhere(vs, (v: ViviendaInforme) => v.voto.Some? && PruebaFavor(v.voto.value.opcionTexto)),
      CountWhere(vs, (v: ViviendaInforme) => v.voto.Some? && PruebaContra(v.voto.value.opcionTexto)),
      CountWhere(vs, (v: ViviendaInforme) => v.voto.Some? && PruebaAbstencion(v.voto.value.opcionTexto)))
  }

  /**
   * The summary against the filter: eligible and ineligible add up to the total, the
   * 'no-voto' and 'sin-derecho' counts are the lengths of those filtered lists, and the
   * favor, against and abstention counts are at least the lengths of theirs.
   */
  lemma ResumenFrenteAFiltro(vs: seq<ViviendaInforme>)
    ensures ResumenDe(vs).conDerechoVoto + ResumenDe(vs).sinDerechoVoto == ResumenDe(vs).total
    ensures ResumenDe(vs).noVotaron == |Filtrar(vs, Solo(NoVoto))|
    ensures ResumenDe(vs).sinDerechoVoto == |Filtrar(vs, Solo(SinDerechoVoto))|
    ensures |Filtrar(vs, Solo(VotoAFavor))| <= ResumenDe(vs).aFavor
    ensures |Filtrar(vs, Solo(VotoEnContra))| <= ResumenDe(vs).enContra
    ensures |Filtrar(vs, Solo(VotoAbstencion))| <= ResumenDe(vs).abstencion
  {
    CountWhereSplit(vs, (v: ViviendaInforme) => v.derechoVoto, (v: ViviendaInforme) => !v.derechoVoto);
    CountWhereExt(vs, (v: ViviendaInforme) => v.derechoVoto && v.voto.None?, (x: ViviendaInforme) => EstadoVivienda(x) == NoVoto);
    CountWhereExt(vs, (v: ViviendaInforme) => !v.derechoVoto, (x: ViviendaInforme) => EstadoVivienda(x) == SinDerechoVoto);
    forall t: string ensures (Resultados.RolDeTexto(t) == Resultados.Favor ==> PruebaFavor(t))
      && (Resultados.RolDeTexto(t) == Resultados.Contra ==> PruebaContra(t))
      && (Resultados.RolDeTexto(t) == Resultados.Abstencion ==> PruebaAbstencion(t))
    {
      RolPorPruebas(t);
    }
    CountWhereMono(vs, (x: ViviendaInforme) => EstadoVivienda(x) == VotoAFavor,
      (v: ViviendaInforme) => v.voto.Some? && PruebaFavor(v.voto.value.opcionTexto));
    CountWhereMono(vs, (x: ViviendaInforme) => EstadoVivienda(x) == VotoEnContra,
      (v: ViviendaInforme) => v.voto.Some? && PruebaContra(v.voto.value.opcionTexto));
    CountWhereMono(vs, (x: ViviendaInforme) => EstadoVivienda(x) == VotoAbstencion,
      (v: ViviendaInforme) => v.voto.Some? && PruebaAbstencion(v.voto.value.opcionTexto));
  }

  /**
   * A dwelling without the right to vote that voted in favor is filed under 'sin-derecho',
   * yet the summary counts it among those who voted and among the votes in favor.
   */
  lemma SinDerechoPeroContado(v: ViviendaInforme)
    requires !v.derechoVoto && v.voto.Some? && PruebaFavor(v.voto.value.opcionTexto)
    ensures EstadoVivienda(v) == SinDerechoVoto
    ensures ResumenDe([v]).votaron == 1 && ResumenDe([v]).aFavor == 1
    ensures ResumenDe([v]).noVotaron == 0 && ResumenDe([v]).sinDerechoVoto == 1
  {
    assert [v][1..] == [];
  }

  /** The label "favor contra" passes both the favor and the against test. */
  lemma FavorContra(t: string)
    requires t == "favor contra"
    ensures PruebaFavor(t) && PruebaContra(t)
  {
    YaEnMinusculas(t);
    ContieneAmbas(t);
  }

  lemma YaEnMinusculas(t: string)
    requires t == "favor contra"
    ensures Texto.Lower(t) == t
  {
    forall i | 0 <= i < |t| ensures Texto.SinMayuscula(t[i]) { }
    Texto.LowerSinMayusculas(t);
  }

  lemma ContieneAmbas(t: string)
    requires t == "favor contra"
    ensures Texto.Contains(t, "favor") && Texto.Contains(t, "contra")
  {
    Texto.ContainsInfix("", "favor", " contra");
    assert "" + "favor" + " contra" == t;
    Texto.ContainsInfix("favor ", "contra", "");
    assert "favor " + "contra" + "" == t;
  }

  /**
   * The summary's tests do not exclude one another: a ballot whose label passes both the
   * favor and the against test (as "favor contra" does) is filed as a vote in favor, yet
   * counted both in favor and against.
   */
  lemma ContadoDosVeces(v: ViviendaInforme)
    requires v.derechoVoto && v.voto.Some?
    requires PruebaFavor(v.voto.value.opcionTexto) && PruebaContra(v.voto.value.opcionTexto)
    ensures EstadoVivienda(v) == VotoAFavor
    ensures ResumenDe([v]).votaron == 1 && ResumenDe([v]).aFavor == 1 && ResumenDe([v]).enContra == 1
  {
    RolPorPruebas(v.voto.value.opcionTexto);
    assert [v][1..] == [];
  }
}
