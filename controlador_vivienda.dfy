/**
 * The dwelling handlers: the coefficient sum of a community, listing, reading, creating,
 * updating and deleting dwellings, and assigning a user to a dwelling.
 */
module ControladorVivienda {
  import opened Common
  import opened ModeloVivienda
  import opened ModeloUsuario
  import opened Almacen
  import Arrays
  import ModeloVotacion
  import ModeloComunidad
  import Texto

  // ---------------------------------------------------------------------------------------
  // Coefficient sums

  /** Some element of a non-empty set; no sum depends on which. */
  ghost function Elegir(s: set<Id>): (k: Id)
    requires s != {}
    ensures k in s
  {
    var k :| k in s; k
  }

  /** The sum of `coeficiente` over the dwellings `s` of `m`, in no particular order. */
  ghost function SumaConjunto(m: map<Id, Vivienda>, s: set<Id>): real
    requires s <= m.Keys
    decreases |s|
  {
    if s == {} then 0.0 else var k := Elegir(s); m[k].coeficiente + SumaConjunto(m, s - {k})
  }

  /** Any dwelling of the set can be taken out first. */
  lemma {:induction false} SumaQuitar(m: map<Id, Vivienda>, s: set<Id>, x: Id)
    requires s <= m.Keys && x in s
    ensures SumaConjunto(m, s) == m[x].coeficiente + SumaConjunto(m, s - {x})
    decreases |s|
  {
    var y := Elegir(s);
    if y != x {
      SumaQuitar(m, s - {y}, x);
      SumaQuitar(m, s - {x}, y);
      assert s - {y} - {x} == s - {x} - {y};
    }
  }

  /** The sum reads only the coefficients of the dwellings summed. */
  lemma {:induction false} SumaExt(m: map<Id, Vivienda>, r: map<Id, Vivienda>, s: set<Id>)
    requires s <= m.Keys && s <= r.Keys
    requires forall k :: k in s ==> m[k].coeficiente == r[k].coeficiente
    ensures SumaConjunto(m, s) == SumaConjunto(r, s)
    decreases |s|
  {
    if s != {} {
      SumaExt(m, r, s - {Elegir(s)});
    }
  }

  /** Coefficients of at least 0, as the schema demands, give a sum of at least 0. */
  lemma {:induction false} SumaNoNegativa(m: map<Id, Vivienda>, s: set<Id>)
    requires s <= m.Keys
    requires forall k :: k in s ==> m[k].coeficiente >= 0.0
    ensures SumaConjunto(m, s) >= 0.0
    decreases |s|
  {
    if s != {} {
      SumaNoNegativa(m, s - {Elegir(s)});
    }
  }

  /** `viviendas.reduce((sum, v) => sum + v.coeficiente, 0)` over a query result. */
  function SumaLista(m: map<Id, Vivienda>, ids: seq<Id>): real
    requires forall k :: k in ids ==> k in m
  {
    if ids == [] then 0.0 else SumaLista(m, ids[..|ids| - 1]) + m[ids[|ids| - 1]].coeficiente
  }

  /** Folding a listing of distinct dwellings gives the sum of the set listed, whatever the order. */
  lemma {:induction false} SumaListaConjunto(m: map<Id, Vivienda>, ids: seq<Id>, s: set<Id>)
    requires s <= m.Keys
    requires forall k :: k in ids <==> k in s
    requires forall i, j :: 0 <= i < j < |ids| ==> ids[i] != ids[j]
    ensures SumaLista(m, ids) == SumaConjunto(m, s)
  {
    if ids != [] {
      var p, x := ids[..|ids| - 1], ids[|ids| - 1];
      assert x !in p by {
        forall i | 0 <= i < |p| ensures p[i] != x {
          assert p[i] == ids[i];
        }
      }
      forall k ensures k in p <==> k in s - {x} {
        assert k in p ==> k in ids;
        if k in ids && k != x {
          var i :| 0 <= i < |ids| && ids[i] == k;
          assert i < |p| && p[i] == k;
        }
      }
      SumaListaConjunto(m, p, s - {x});
      SumaQuitar(m, s, x);
    }
  }

  /** The query of `calcularSumaCoeficientes`: the community's dwellings, less `excluida`. */
  function Otras(m: map<Id, Vivienda>, c: Id, excluida: Option<Id>): (s: set<Id>)
    ensures forall k :: k in s <==> k in m && m[k].comunidad == c && Some(k) != excluida
  {
    set k | k in m && m[k].comunidad == c && Some(k) != excluida
  }

  /** `calcularSumaCoeficientes(comunidad, excluida)`. */
  ghost function SumaCoeficientes(m: map<Id, Vivienda>, c: Id, excluida: Option<Id>): real
  {
    SumaConjunto(m, Otras(m, c, excluida))
  }

  /** The query followed by the fold: the sum of the coefficients of the selected dwellings. */
  method CalcularSumaCoeficientes(db: Db, c: Id, excluida: Option<Id>) returns (s: real)
    ensures s == SumaCoeficientes(db.viviendas, c, excluida)
  {
    var ids := Enumerar(Otras(db.viviendas, c, excluida));
    s := SumaLista(db.viviendas, ids);
    SumaListaConjunto(db.viviendas, ids, Otras(db.viviendas, c, excluida));
  }

  /** The whole community's sum is one dwelling's coefficient plus the sum of the others. */
  lemma SumaSinUna(m: map<Id, Vivienda>, c: Id, k: Id)
    requires k in m && m[k].comunidad == c
    ensures SumaCoeficientes(m, c, None) == m[k].coeficiente + SumaCoeficientes(m, c, Some(k))
  {
    assert Otras(m, c, Some(k)) == Otras(m, c, None) - {k};
    SumaQuitar(m, Otras(m, c, None), k);
  }

  /**
   * Writing dwelling `id`: its new community's sum is its coefficient plus that of the others
   * there, and every other community's sum is that of its dwellings other than `id`.
   */
  lemma SumaTrasEscribir(m: map<Id, Vivienda>, id: Id, v: Vivienda, c: Id)
    ensures c == v.comunidad ==>
      SumaCoeficientes(m[id := v], c, None) == v.coeficiente + SumaCoeficientes(m, c, Some(id))
    ensures c != v.comunidad ==> SumaCoeficientes(m[id := v], c, None) == SumaCoeficientes(m, c, Some(id))
  {
    var r := m[id := v];
    var resto := Otras(m, c, Some(id));
    assert Otras(r, c, None) - {id} == resto;
    SumaExt(m, r, resto);
    if c == v.comunidad {
      SumaQuitar(r, Otras(r, c, None), id);
    } else {
      assert Otras(r, c, None) == resto;
    }
  }

  /** Deleting dwelling `id` leaves every community with the sum of its other dwellings. */
  lemma SumaTrasBorrar(m: map<Id, Vivienda>, id: Id, c: Id)
    ensures SumaCoeficientes(m - {id}, c, None) == SumaCoeficientes(m, c, Some(id))
  {
    var r := m - {id};
    assert Otras(r, c, None) == Otras(m, c, Some(id));
    SumaExt(m, r, Otras(r, c, None));
  }

  /** A community's sum never counts more than the limit the handlers allow. */
  ghost predicate Acotada(m: map<Id, Vivienda>, c: Id)
  {
    SumaCoeficientes(m, c, None) <= 100.001
  }

  /** The schema's coefficient bound on every stored dwelling. */
  predicate CoeficientesValidos(m: map<Id, Vivienda>)
  {
    forall k :: k in m ==> m[k].coeficiente >= 0.0
  }

  // ---------------------------------------------------------------------------------------
  // Access

  /** The handlers' access test: a superadmin, or a caller of the dwelling's community. */
  predicate Gestiona(actor: Actor, c: Id)
  {
    actor.rol == Superadmin || actor.comunidad == Some(c)
  }

  /**
   * `getVivienda`: 404 for an unknown id; a superadmin sees any dwelling and a caller without
   * a community none (403). Otherwise the check reads `_id` of the populated community, which
   * is `null` once that community was deleted: the TypeError is answered with 500. Then 403
   * outside the caller's community.
   */
  function VerVivienda(m: map<Id, Vivienda>, cs: map<Id, ModeloComunidad.Comunidad>, actor: Actor, id: Id): (r: Result<Vivienda>)
    ensures id !in m ==> r == Fail(404, DwellingNotFound)
    ensures id in m && actor.rol == Superadmin ==> r == Ok(m[id])
    ensures id in m && actor.rol != Superadmin && actor.comunidad.None? ==> r == Fail(403, Forbidden)
    ensures id in m && actor.rol != Superadmin && actor.comunidad.Some? && m[id].comunidad !in cs ==>
      r == Fail(500, TypeErrorThrown)
    ensures id in m && m[id].comunidad in cs ==>
      (r == Ok(m[id]) <==> Gestiona(actor, m[id].comunidad)) && (r.Err? ==> r == Fail(403, Forbidden))
  {
    if id !in m then Fail(404, DwellingNotFound)
    else if actor.rol == Superadmin then Ok(m[id])
    else if actor.comunidad.None? then Fail(403, Forbidden)
    else if m[id].comunidad !in cs then Fail(500, TypeErrorThrown)
    else if actor.comunidad.value != m[id].comunidad then Fail(403, Forbidden)
    else Ok(m[id])
  }

  /**
   * The community `getViviendas` filters by: a non-superadmin's own community, else the one
   * in the query string, else none. A caller without a community can name any in the query.
   */
  function FiltroListado(actor: Actor, consulta: Option<Id>): (f: Option<Id>)
    ensures actor.rol != Superadmin && actor.comunidad.Some? ==> f == actor.comunidad
    ensures !(actor.rol != Superadmin && actor.comunidad.Some?) ==> f == consulta
  {
    if actor.rol != Superadmin && actor.comunidad.Some? then actor.comunidad else consulta
  }

  /**
   * `getViviendas`: the dwellings of the filtering community, or all of them, and their sum
   * only when a community filters the list (otherwise 0).
   */
  method GetViviendas(db: Db, actor: Actor, consulta: Option<Id>) returns (ids: seq<Id>, suma: real)
    ensures var f := FiltroListado(actor, consulta);
      forall k :: k in ids <==> k in db.viviendas && (f.None? || db.viviendas[k].comunidad == f.value)
    ensures forall i, j :: 0 <= i < j < |ids| ==> ids[i] != ids[j]
    ensures var f := FiltroListado(actor, consulta);
      suma == if f.Some? then SumaCoeficientes(db.viviendas, f.value, None) else 0.0
  {
    var f := FiltroListado(actor, consulta);
    if f.Some? {
      ids := Enumerar(Otras(db.viviendas, f.value, None));
      suma := SumaLista(db.viviendas, ids);
      SumaListaConjunto(db.viviendas, ids, Otras(db.viviendas, f.value, None));
    } else {
      ids := Enumerar(db.viviendas.Keys);
      suma := 0.0;
    }
  }

  // ---------------------------------------------------------------------------------------
  // Create

  /** What `parseFloat` makes of the sent coefficient. */
  datatype Numero = NaN | Num(valor: real)

  /** The body of a create request; `None` is a key that was not sent. */
  datatype AltaVivienda = AltaVivienda(
    numeroPuerta: Field<string>,
    coeficiente: Option<Numero>,
    derechoVoto: Option<bool>,
    comunidad: Field<Id>)

  /** A truthy text field: sent and not `''`. */
  predicate Verdadero(f: Field<string>)
  {
    f.Given? && f.value != ""
  }

  /** A sent coefficient that is not a number, or not above 0. */
  predicate CoeficienteInvalido(n: Numero)
  {
    n.NaN? || n.valor <= 0.0
  }

  /** The community of a new dwelling: the one sent, else the caller's. */
  function Destino(actor: Actor, comunidad: Field<Id>): (c: Option<Id>)
    ensures comunidad.Given? ==> c == Some(comunidad.value)
    ensures !comunidad.Given? ==> c == actor.comunidad
  {
    if comunidad.Given? then Some(comunidad.value) else actor.comunidad
  }

  /**
   * `crearVivienda` up to the insert, given the current sum of the target community, with
   * the caller's-community check comparing community ids: the required fields, the
   * community, the caller's community, the door number in that community (the lookup's
   * filter goes through the trim setter), the coefficient and the 100.001 ceiling, then the
   * schema.
   */
  function PlanCrearVivienda(m: map<Id, Vivienda>, actor: Actor, alta: AltaVivienda, sumaActual: real): Result<Vivienda>
  {
    if !Verdadero(alta.numeroPuerta) || alta.coeficiente.None? then Fail(400, MissingFields)
    else if Destino(actor, alta.comunidad).None? then Fail(400, CommunityRequired)
    else
      var c := Destino(actor, alta.comunidad).value;
      var coef := alta.coeficiente.value;
      if actor.rol != Superadmin && actor.comunidad.Some? && actor.comunidad.value != c then Fail(403, OtherCommunity)
      else if PuertaOcupada(m, Texto.Trim(alta.numeroPuerta.value), c, None) then Fail(400, DuplicateDoor)
      else if CoeficienteInvalido(coef) then Fail(400, BadCoefficient)
      else if sumaActual + coef.valor > 100.001 then Fail(400, CoefficientOverflow)
      else ModeloVivienda.Guardar(Vivienda(alta.numeroPuerta.value, coef.valor,
        DerechoVotoPorDefecto(alta.derechoVoto), [], c))
  }

  /**
   * The refusals of `crearVivienda` in their order, and a created dwelling lies in the target
   * community with a positive coefficient that keeps the community within 100.001, no
   * residents, and `derechoVoto` true unless sent.
   */
  lemma PlanCrearViviendaCorrecto(m: map<Id, Vivienda>, actor: Actor, alta: AltaVivienda)
    ensures var c := Destino(actor, alta.comunidad);
      var suma := if c.Some? then SumaCoeficientes(m, c.value, None) else 0.0;
      var r := PlanCrearVivienda(m, actor, alta, suma);
      && (!Verdadero(alta.numeroPuerta) || alta.coeficiente.None? ==> r == Fail(400, MissingFields))
      && (Verdadero(alta.numeroPuerta) && alta.coeficiente.Some? && c.None? ==> r == Fail(400, CommunityRequired))
      && ((Verdadero(alta.numeroPuerta) && alta.coeficiente.Some? && c.Some? &&
           actor.rol != Superadmin && actor.comunidad.Some? && actor.comunidad != c) ==> r == Fail(403, OtherCommunity))
      && (r.Ok? ==> c.Some? && r.value.comunidad == c.value)
      && ((Verdadero(alta.numeroPuerta) && alta.coeficiente.Some? && c.Some? && Gestiona(actor, c.value) &&
           PuertaOcupada(m, Texto.Trim(alta.numeroPuerta.value), c.value, None)) ==> r == Fail(400, DuplicateDoor))
      && (r.Ok? ==> !PuertaOcupada(m, Texto.Trim(alta.numeroPuerta.value), c.value, None))
      && (r.Ok? ==> r.value.coeficiente > 0.0 && suma + r.value.coeficiente <= 100.001)
      && (r.Ok? ==> r.value.habitantes == [] && r.value.derechoVoto == (alta.derechoVoto != Some(false)))
      && (r.Ok? ==> ModeloVivienda.EsValida(r.value))
      && (r.Ok? && actor.rol != Superadmin && actor.comunidad.Some? ==> actor.comunidad == c)
  {
  }

  /**
   * The community value `crearVivienda` holds: the id sent in the body, or, when none was
   * sent, the caller's community document the middleware populated.
   */
  datatype Referencia = PorId(id: Id) | Documento(id: Id)

  function ComoTexto(r: Referencia): (t: Cadena)
    ensures r.PorId? ==> t == Hex(r.id)
    ensures r.Documento? ==> !t.Hex?
  {
    match r
    case PorId(c) => Hex(c)
    case Documento(c) => Volcado(c)
  }

  /**
   * A complete request without a community from a caller other than a superadmin who has
   * one: the case in which the check compares against the populated document.
   */
  predicate PorDocumento(actor: Actor, alta: AltaVivienda)
  {
    && Verdadero(alta.numeroPuerta) && alta.coeficiente.Some? && !alta.comunidad.Given?
    && actor.rol != Superadmin && actor.comunidad.Some?
  }

  /**
   * `crearVivienda` as written: the caller's-community check compares the caller's community
   * id with `comunidad.toString()`, and when no community was sent `comunidad` is the caller's
   * populated document, whose text is no id. Every other step is the plan's.
   */
  function PlanCrearViviendaTalCual(m: map<Id, Vivienda>, actor: Actor, alta: AltaVivienda, sumaActual: real): (r: Result<Vivienda>)
    ensures PorDocumento(actor, alta) ==> r == Fail(403, OtherCommunity)
    ensures !PorDocumento(actor, alta) ==> r == PlanCrearVivienda(m, actor, alta, sumaActual)
  {
    if !Verdadero(alta.numeroPuerta) || alta.coeficiente.None? then Fail(400, MissingFields)
    else if Destino(actor, alta.comunidad).None? then Fail(400, CommunityRequired)
    else
      var ref := if alta.comunidad.Given? then PorId(alta.comunidad.value) else Documento(actor.comunidad.value);
      if actor.rol != Superadmin && actor.comunidad.Some? && Hex(actor.comunidad.value) != ComoTexto(ref) then
        Fail(403, OtherCommunity)
      else PlanCrearVivienda(m, actor, alta, sumaActual)
  }

  /**
   * As written, an administrator who leaves the community out is refused with 403 although
   * the dwelling would go to their own community; the corrected plan lets the request past
   * that check and creates the dwelling there.
   */
  lemma AltaSinComunidadRechazada(m: map<Id, Vivienda>, actor: Actor, alta: AltaVivienda, suma: real)
    requires actor.rol == Admin && actor.comunidad.Some? && alta.comunidad == Absent
    requires Verdadero(alta.numeroPuerta) && alta.coeficiente.Some?
    ensures PlanCrearViviendaTalCual(m, actor, alta, suma) == Fail(403, OtherCommunity)
    ensures PlanCrearVivienda(m, actor, alta, suma) != Fail(403, OtherCommunity)
    ensures PlanCrearVivienda(m, actor, alta, suma).Ok? ==>
      PlanCrearVivienda(m, actor, alta, suma).value.comunidad == actor.comunidad.value
  {
  }

  /** A dwelling the create plan accepts leaves its community's sum within the limit, and that sum is the one reported. */
  lemma AltaAcotada(m: map<Id, Vivienda>, actor: Actor, alta: AltaVivienda, id: Id)
    requires id !in m
    ensures var c := Destino(actor, alta.comunidad);
      var suma := if c.Some? then SumaCoeficientes(m, c.value, None) else 0.0;
      var r := PlanCrearVivienda(m, actor, alta, suma);
      r.Ok? ==>
        && SumaCoeficientes(m[id := r.value], c.value, None) == suma + r.value.coeficiente
        && Acotada(m[id := r.value], c.value)
  {
    var c := Destino(actor, alta.comunidad);
    var suma := if c.Some? then SumaCoeficientes(m, c.value, None) else 0.0;
    var r := PlanCrearVivienda(m, actor, alta, suma);
    if r.Ok? {
      SumaTrasEscribir(m, id, r.value, c.value);
      assert Otras(m, c.value, Some(id)) == Otras(m, c.value, None);
    }
  }

  /** `crearVivienda`: the plan, then the insert under the door-number index; reports the new sum. */
  method CrearVivienda(db: Db, actor: Actor, alta: AltaVivienda, id: Id) returns (r: Result<real>)
    requires db.Valid() && id !in db.viviendas
    modifies db
    ensures db.Valid()
    ensures var c := Destino(actor, alta.comunidad);
      var suma := if c.Some? then SumaCoeficientes(old(db.viviendas), c.value, None) else 0.0;
      var p := PlanCrearVivienda(old(db.viviendas), actor, alta, suma);
      && (p.Err? ==> r == Err(p.failure) && db.viviendas == old(db.viviendas))
      && (p.Ok? ==> var w := ModeloVivienda.Escribir(old(db.viviendas), id, p.value);
          && (w.Err? ==> r == Err(w.failure) && db.viviendas == old(db.viviendas))
          && (w.Ok? ==> db.viviendas == w.value && r == Ok(SumaCoeficientes(db.viviendas, c.value, None))))
    ensures db.votaciones == old(db.votaciones) && db.votos == old(db.votos)
    ensures db.usuarios == old(db.usuarios) && db.comunidades == old(db.comunidades)
  {
    var c := Destino(actor, alta.comunidad);
    var suma := 0.0;
    if c.Some? {
      suma := CalcularSumaCoeficientes(db, c.value, None);
    }
    var p := PlanCrearVivienda(db.viviendas, actor, alta, suma);
    if p.Err? {
      return Err(p.failure);
    }
    var w := ModeloVivienda.Escribir(db.viviendas, id, p.value);
    if w.Err? {
      return Err(w.failure);
    }
    ModeloVivienda.EscribirConservaIndice(db.viviendas, id, p.value);
    SumaTrasEscribir(db.viviendas, id, p.value, c.value);
    assert Otras(db.viviendas, c.value, Some(id)) == Otras(db.viviendas, c.value, None);
    db.viviendas := w.value;
    r := Ok(suma + p.value.coeficiente);
  }

  // ---------------------------------------------------------------------------------------
  // Update

  /**
   * The schema keys of an update body, all passed on to `findByIdAndUpdate`; `None` is a key
   * that was not sent. A sent `habitantes` replaces the resident list as it stands.
   */
  datatype CambiosVivienda = CambiosVivienda(
    numeroPuerta: Field<string>,
    coeficiente: Option<Numero>,
    derechoVoto: Option<bool>,
    habitantes: Option<seq<Id>>,
    comunidad: Field<Id>)

  /** `delete req.body.comunidad` for a truthy community sent by anyone but a superadmin. */
  function Filtrar(actor: Actor, c: CambiosVivienda): (f: CambiosVivienda)
    ensures f.numeroPuerta == c.numeroPuerta && f.coeficiente == c.coeficiente && f.derechoVoto == c.derechoVoto
    ensures f.habitantes == c.habitantes
    ensures c.comunidad.Given? && actor.rol != Superadmin ==> f.comunidad == Absent
    ensures !(c.comunidad.Given? && actor.rol != Superadmin) ==> f.comunidad == c.comunidad
  {
    if c.comunidad.Given? && actor.rol != Superadmin then c.(comunidad := Absent) else c
  }

  /** The document `findByIdAndUpdate` sets: every sent key, the coefficient as a number. */
  function Aplicar(v: Vivienda, c: CambiosVivienda): Vivienda
    requires !c.comunidad.Empty?
    requires c.coeficiente.Some? ==> c.coeficiente.value.Num?
  {
    v.(numeroPuerta := if c.numeroPuerta.Given? then c.numeroPuerta.value
                       else if c.numeroPuerta.Empty? then "" else v.numeroPuerta,
       coeficiente := if c.coeficiente.Some? then c.coeficiente.value.valor else v.coeficiente,
       derechoVoto := ModeloVotacion.Get(c.derechoVoto, v.derechoVoto),
       habitantes := ModeloVotacion.Get(c.habitantes, v.habitantes),
       comunidad := if c.comunidad.Given? then c.comunidad.value else v.comunidad)
  }

  /** The checks before the write that do not depend on the coefficient sum. */
  function Previas(m: map<Id, Vivienda>, actor: Actor, id: Id, c: CambiosVivienda): Result<CambiosVivienda>
    requires id in m
  {
    var v := m[id];
    if !Gestiona(actor, v.comunidad) then Fail(403, Forbidden)
    else
      var f := Filtrar(actor, c);
      if Verdadero(f.numeroPuerta) && f.numeroPuerta.value != v.numeroPuerta &&
         PuertaOcupada(m, Texto.Trim(f.numeroPuerta.value), v.comunidad, Some(id)) then Fail(400, DuplicateDoor)
      else if f.coeficiente.Some? && CoeficienteInvalido(f.coeficiente.value) then Fail(400, BadCoefficient)
      else Ok(f)
  }

  /** The update validators: a community sent as `null` or `''` fails `required`; then the schema. */
  function GuardarCambios(v: Vivienda, f: CambiosVivienda): Result<Vivienda>
    requires f.coeficiente.Some? ==> f.coeficiente.value.Num?
  {
    if f.comunidad.Empty? then Fail(400, SchemaValidation) else ModeloVivienda.Guardar(Aplicar(v, f))
  }

  /**
   * `actualizarVivienda` as written: a sent coefficient is checked against the other
   * dwellings of the community the dwelling is in before the update, `sumaOtras` being
   * `calcularSumaCoeficientes(vivienda.comunidad, id)`, even when a superadmin moves it.
   */
  function PlanActualizarViviendaTalCual(m: map<Id, Vivienda>, actor: Actor, id: Id, c: CambiosVivienda, sumaOtras: real): Result<Vivienda>
    requires id in m
  {
    var p := Previas(m, actor, id, c);
    if p.Err? then Err(p.failure)
    else if p.value.coeficiente.Some? && sumaOtras + p.value.coeficiente.value.valor > 100.001 then
      Fail(400, CoefficientOverflow)
    else GuardarCambios(m[id], p.value)
  }

  /**
   * The community a dwelling will be in after the update, and whether the ceiling has to be
   * checked: when a coefficient is sent or the dwelling changes community.
   */
  function Traslado(m: map<Id, Vivienda>, id: Id, f: CambiosVivienda): Id
    requires id in m
  {
    if f.comunidad.Given? then f.comunidad.value else m[id].comunidad
  }

  /**
   * `actualizarVivienda` with the ceiling checked in the community the dwelling ends up in,
   * `sumaOtras` being the sum of the other dwellings there, whenever the coefficient is sent
   * or the community changes.
   */
  function PlanActualizarVivienda(m: map<Id, Vivienda>, actor: Actor, id: Id, c: CambiosVivienda, sumaOtras: real): Result<Vivienda>
    requires id in m
  {
    var p := Previas(m, actor, id, c);
    if p.Err? then Err(p.failure)
    else
      var f := p.value;
      var coef := if f.coeficiente.Some? then f.coeficiente.value.valor else m[id].coeficiente;
      if (f.coeficiente.Some? || Traslado(m, id, f) != m[id].comunidad) && sumaOtras + coef > 100.001 then
        Fail(400, CoefficientOverflow)
      else GuardarCambios(m[id], f)
  }

  /** The sum `PlanActualizarVivienda` is given: the other dwellings of the target community. */
  ghost function SumaDestino(m: map<Id, Vivienda>, actor: Actor, id: Id, c: CambiosVivienda): real
    requires id in m
  {
    SumaCoeficientes(m, Traslado(m, id, Filtrar(actor, c)), Some(id))
  }

  /**
   * The refusals of the update in their order, and what an accepted update holds: the sent
   * keys, a community change only by a superadmin, a positive sent coefficient.
   */
  lemma PlanActualizarViviendaCorrecto(m: map<Id, Vivienda>, actor: Actor, id: Id, c: CambiosVivienda)
    requires id in m
    ensures var r := PlanActualizarVivienda(m, actor, id, c, SumaDestino(m, actor, id, c));
      && (!Gestiona(actor, m[id].comunidad) ==> r == Fail(403, Forbidden))
      && ((Gestiona(actor, m[id].comunidad) && Verdadero(c.numeroPuerta) && c.numeroPuerta.value != m[id].numeroPuerta &&
           PuertaOcupada(m, Texto.Trim(c.numeroPuerta.value), m[id].comunidad, Some(id))) ==> r == Fail(400, DuplicateDoor))
      && (r.Ok? ==> ModeloVivienda.EsValida(r.value))
      && (r.Ok? ==> r.value.habitantes == ModeloVotacion.Get(c.habitantes, m[id].habitantes))
      && (r.Ok? && actor.rol != Superadmin ==> r.value.comunidad == m[id].comunidad)
      && (r.Ok? && actor.rol == Superadmin && c.comunidad.Given? ==> r.value.comunidad == c.comunidad.value)
      && (r.Ok? && c.coeficiente.Some? ==> c.coeficiente.value.Num? && r.value.coeficiente == c.coeficiente.value.valor > 0.0)
      && (r.Ok? && c.coeficiente.None? ==> r.value.coeficiente == m[id].coeficiente)
      && (r.Ok? ==> r.value.derechoVoto == ModeloVotacion.Get(c.derechoVoto, m[id].derechoVoto))
      && (c.comunidad.Empty? && Gestiona(actor, m[id].comunidad) ==> r.Err?)
  {
  }

  /**
   * The ceiling is kept: if every community was within 100.001 before, every community is
   * within it after an accepted update, whatever community the dwelling moves to.
   */
  lemma ActualizarConservaTope(m: map<Id, Vivienda>, actor: Actor, id: Id, c: CambiosVivienda, k: Id)
    requires id in m && CoeficientesValidos(m)
    requires forall x :: Acotada(m, x)
    ensures var r := PlanActualizarVivienda(m, actor, id, c, SumaDestino(m, actor, id, c));
      r.Ok? ==> Acotada(m[id := r.value], k)
  {
    var r := PlanActualizarVivienda(m, actor, id, c, SumaDestino(m, actor, id, c));
    if r.Ok? {
      var v := r.value;
      SumaTrasEscribir(m, id, v, k);
      assert Acotada(m, k);
      if k == v.comunidad {
        if v.comunidad == m[id].comunidad && c.coeficiente.None? {
          SumaSinUna(m, k, id);
        }
      } else {
        SumaNoNegativa(m, Otras(m, k, Some(id)));
        if m[id].comunidad == k {
          SumaSinUna(m, k, id);
        } else {
          assert Otras(m, k, Some(id)) == Otras(m, k, None);
        }
      }
    }
  }

  /**
   * An accepted update that does not send `habitantes` keeps residence coherent: no resident
   * list changes and no user is touched.
   */
  lemma ActualizarViviendaCoherente(m: map<Id, Vivienda>, us: map<Id, Usuario>, actor: Actor, id: Id, c: CambiosVivienda)
    requires id in m && Coherente(m, us) && c.habitantes.None?
    ensures var r := PlanActualizarVivienda(m, actor, id, c, SumaDestino(m, actor, id, c));
      r.Ok? ==> Coherente(m[id := r.value], us)
  {
    var r := PlanActualizarVivienda(m, actor, id, c, SumaDestino(m, actor, id, c));
    if r.Ok? {
      PlanActualizarViviendaCorrecto(m, actor, id, c);
      var m' := m[id := r.value];
      forall u, v | u in us && v in m' ensures us[u].vivienda == Some(v) <==> u in m'[v].habitantes {
        assert m'[v].habitantes == m[v].habitantes;
      }
    }
  }

  /** A superadmin's update of dwelling 1 that sends user 5 as its only resident. */
  function ConHabitante(): CambiosVivienda
  {
    CambiosVivienda(Absent, None, None, Some([5]), Absent)
  }

  /**
   * A sent `habitantes` is written as it stands: user 5, who names no dwelling, ends listed
   * in dwelling 1, and residence that was coherent no longer is.
   */
  lemma HabitantesSinUsuario()
    ensures var us := map[5 := Usuario("Ana", "ana@correo.es", "secreto", Vecino, None, Some(1))];
      var actor := Actor(0, Superadmin, None, None);
      var r := PlanActualizarVivienda(Ejemplo(), actor, 1, ConHabitante(), SumaDestino(Ejemplo(), actor, 1, ConHabitante()));
      && Coherente(Ejemplo(), us)
      && r == Ok(Vivienda("1", 10.0, true, [5], 1))
      && !Coherente(Ejemplo()[1 := r.value], us)
  {
    var m := Ejemplo();
    var actor := Actor(0, Superadmin, None, None);
    assert Previas(m, actor, 1, ConHabitante()) == Ok(ConHabitante());
    Texto.RecortadoTrim("1");
    assert ModeloVivienda.Guardar(Vivienda("1", 10.0, true, [5], 1)) == Ok(Vivienda("1", 10.0, true, [5], 1));
    var us := map[5 := Usuario("Ana", "ana@correo.es", "secreto", Vecino, None, Some(1))];
    forall u, v | u in us && v in m ensures us[u].vivienda == Some(v) <==> u in m[v].habitantes {
      assert m[v].habitantes == [];
    }
    var m' := m[1 := Vivienda("1", 10.0, true, [5], 1)];
    assert 5 in m'[1].habitantes && us[5].vivienda != Some(1);
  }

  /** Two communities: dwelling 1 (coefficient 10) alone in community 1, dwelling 2 (coefficient 100) in community 2. */
  function Ejemplo(): map<Id, Vivienda>
  {
    map[1 := Vivienda("1", 10.0, true, [], 1), 2 := Vivienda("2", 100.0, true, [], 2)]
  }

  /** A superadmin's update moving dwelling 1 to community 2 and resending its coefficient. */
  function Mudanza(): CambiosVivienda
  {
    CambiosVivienda(Absent, Some(Num(10.0)), None, None, Given(2))
  }

  lemma SumasEjemplo()
    ensures SumaCoeficientes(Ejemplo(), 1, Some(1)) == 0.0
    ensures SumaCoeficientes(Ejemplo(), 1, None) == 10.0
    ensures SumaCoeficientes(Ejemplo(), 2, Some(1)) == 100.0
    ensures SumaCoeficientes(Ejemplo(), 2, None) == 100.0
  {
    var m := Ejemplo();
    assert Otras(m, 1, Some(1)) == {};
    assert Otras(m, 1, None) == {1};
    assert Otras(m, 2, Some(1)) == {2};
    assert Otras(m, 2, None) == {2};
    SumaQuitar(m, {1}, 1);
    SumaQuitar(m, {2}, 2);
    assert {1} - {1} == {} && {2} - {2} == {};
  }

  /** The update as written accepts the move: the check sums community 1, which it leaves. */
  lemma MudanzaAceptada()
    ensures PlanActualizarViviendaTalCual(Ejemplo(), Actor(0, Superadmin, None, None), 1, Mudanza(),
      SumaCoeficientes(Ejemplo(), Ejemplo()[1].comunidad, Some(1))) == Ok(Vivienda("1", 10.0, true, [], 2))
  {
    SumasEjemplo();
    var m := Ejemplo();
    var actor := Actor(0, Superadmin, None, None);
    assert !PuertaOcupada(m, "1", 1, Some(1));
    assert Previas(m, actor, 1, Mudanza()) == Ok(Mudanza());
    Texto.RecortadoTrim("1");
    assert ModeloVivienda.Guardar(Vivienda("1", 10.0, true, [], 2)) == Ok(Vivienda("1", 10.0, true, [], 2));
  }

  /**
   * As written, a superadmin can move a dwelling into a community that is already full: the
   * coefficient is checked against the community it leaves, and the one it joins ends above
   * 100.001. The corrected update refuses the same request.
   */
  lemma TrasladoSinTope()
    ensures Acotada(Ejemplo(), 1) && Acotada(Ejemplo(), 2)
    ensures var r := PlanActualizarViviendaTalCual(Ejemplo(), Actor(0, Superadmin, None, None), 1, Mudanza(),
      SumaCoeficientes(Ejemplo(), Ejemplo()[1].comunidad, Some(1)));
      r.Ok? && !Acotada(Ejemplo()[1 := r.value], 2)
    ensures PlanActualizarVivienda(Ejemplo(), Actor(0, Superadmin, None, None), 1, Mudanza(),
      SumaDestino(Ejemplo(), Actor(0, Superadmin, None, None), 1, Mudanza())) == Fail(400, CoefficientOverflow)
  {
    SumasEjemplo();
    MudanzaAceptada();
    SumaTrasEscribir(Ejemplo(), 1, Vivienda("1", 10.0, true, [], 2), 2);
  }

  /**
   * `actualizarVivienda`, with the ceiling checked in the target community: 404 for an
   * unknown id, the plan, the write under the index; reports the new sum of its community.
   */
  method ActualizarVivienda(db: Db, actor: Actor, id: Id, c: CambiosVivienda) returns (r: Result<real>)
    requires db.Valid()
    modifies db
    ensures db.Valid()
    ensures id !in old(db.viviendas) ==> r == Fail(404, DwellingNotFound) && db.viviendas == old(db.viviendas)
    ensures id in old(db.viviendas) ==>
      var p := PlanActualizarVivienda(old(db.viviendas), actor, id, c, SumaDestino(old(db.viviendas), actor, id, c));
      && (p.Err? ==> r == Err(p.failure) && db.viviendas == old(db.viviendas))
      && (p.Ok? ==> var w := ModeloVivienda.Escribir(old(db.viviendas), id, p.value);
          && (w.Err? ==> r == Err(w.failure) && db.viviendas == old(db.viviendas))
          && (w.Ok? ==> db.viviendas == w.value && r == Ok(SumaCoeficientes(db.viviendas, p.value.comunidad, None))))
    ensures db.votaciones == old(db.votaciones) && db.votos == old(db.votos)
    ensures db.usuarios == old(db.usuarios) && db.comunidades == old(db.comunidades)
  {
    if id !in db.viviendas {
      return Fail(404, DwellingNotFound);
    }
    var destino := Traslado(db.viviendas, id, Filtrar(actor, c));
    var sumaOtras := CalcularSumaCoeficientes(db, destino, Some(id));
    var p := PlanActualizarVivienda(db.viviendas, actor, id, c, sumaOtras);
    if p.Err? {
      return Err(p.failure);
    }
    var w := ModeloVivienda.Escribir(db.viviendas, id, p.value);
    if w.Err? {
      return Err(w.failure);
    }
    ModeloVivienda.EscribirConservaIndice(db.viviendas, id, p.value);
    db.viviendas := w.value;
    var suma := CalcularSumaCoeficientes(db, p.value.comunidad, None);
    r := Ok(suma);
  }

  // ---------------------------------------------------------------------------------------
  // Assign a user

  /**
   * `asignarUsuarioVivienda`: 404 for an unknown dwelling or user, 403 outside the caller's
   * community, 400 for a user of another community; otherwise the user leaves their previous
   * dwelling, takes this dwelling and its community, and is listed in it once.
   */
  function PlanAsignar(vs: map<Id, Vivienda>, us: map<Id, Usuario>, actor: Actor, vid: Id, uid: Id)
    : Result<(map<Id, Vivienda>, map<Id, Usuario>)>
  {
    if vid !in vs then Fail(404, DwellingNotFound)
    else if uid !in us then Fail(404, UserNotFound)
    else if !Gestiona(actor, vs[vid].comunidad) then Fail(403, Forbidden)
    else if us[uid].comunidad.Some? && us[uid].comunidad.value != vs[vid].comunidad then Fail(400, UserInOtherCommunity)
    else
      var u := us[uid];
      var previa := if u.vivienda.Some? && u.vivienda.value != vid then SacarHabitante(vs, u.vivienda.value, uid) else vs;
      var us' := us[uid := u.(vivienda := Some(vid), comunidad := Some(vs[vid].comunidad))];
      Ok((MeterHabitante(previa, vid, uid), us'))
  }

  /**
   * The assignment's refusals; after it the user names the dwelling and its community, the
   * dwelling lists them, their previous dwelling does not, and only the two dwellings and
   * the user change.
   */
  lemma PlanAsignarCorrecto(vs: map<Id, Vivienda>, us: map<Id, Usuario>, actor: Actor, vid: Id, uid: Id)
    ensures var r := PlanAsignar(vs, us, actor, vid, uid);
      && (vid !in vs ==> r == Fail(404, DwellingNotFound))
      && (vid in vs && uid !in us ==> r == Fail(404, UserNotFound))
      && (vid in vs && uid in us && !Gestiona(actor, vs[vid].comunidad) ==> r == Fail(403, Forbidden))
      && (r.Ok? <==> (vid in vs && uid in us && Gestiona(actor, vs[vid].comunidad) &&
           (us[uid].comunidad.None? || us[uid].comunidad == Some(vs[vid].comunidad))))
      && (r.Ok? ==> var (vs', us') := r.value;
          && vs'.Keys == vs.Keys && us'.Keys == us.Keys
          && us'[uid].vivienda == Some(vid) && us'[uid].comunidad == Some(vs[vid].comunidad)
          && uid in vs'[vid].habitantes
          && (uid in vs[vid].habitantes ==> vs'[vid].habitantes == vs[vid].habitantes)
          && (forall k :: k in vs && k != vid && Some(k) == us[uid].vivienda ==> uid !in vs'[k].habitantes)
          && (forall k :: k in vs && k != vid && Some(k) != us[uid].vivienda ==> vs'[k] == vs[k])
          && (forall k :: k in us && k != uid ==> us'[k] == us[k]))
  {
  }

  /** Assignment keeps residence coherent. */
  lemma AsignarCoherente(vs: map<Id, Vivienda>, us: map<Id, Usuario>, actor: Actor, vid: Id, uid: Id)
    requires Coherente(vs, us)
    ensures var r := PlanAsignar(vs, us, actor, vid, uid);
      r.Ok? ==> Coherente(r.value.0, r.value.1)
  {
    var r := PlanAsignar(vs, us, actor, vid, uid);
    if r.Ok? {
      PlanAsignarCorrecto(vs, us, actor, vid, uid);
      var (vs', us') := r.value;
      forall u, v | u in us' && v in vs' ensures us'[u].vivienda == Some(v) <==> u in vs'[v].habitantes {
        if u != uid && v != vid && Some(v) == us[uid].vivienda {
          assert vs'[v].habitantes == Arrays.Pull(vs[v].habitantes, uid);
        } else if u != uid && v == vid {
          assert vs'[v].habitantes == Arrays.AddToSet(vs[v].habitantes, uid);
        }
      }
    }
  }

  /** Assignment touches neither door numbers nor addresses, so both indexes hold after it. */
  lemma AsignarConservaIndices(vs: map<Id, Vivienda>, us: map<Id, Usuario>, actor: Actor, vid: Id, uid: Id)
    requires PuertasUnicas(vs) && EmailsUnicos(us)
    ensures var r := PlanAsignar(vs, us, actor, vid, uid);
      r.Ok? ==> PuertasUnicas(r.value.0) && EmailsUnicos(r.value.1)
  {
    var r := PlanAsignar(vs, us, actor, vid, uid);
    if r.Ok? {
      var u := us[uid];
      var previa := if u.vivienda.Some? && u.vivienda.value != vid then SacarHabitante(vs, u.vivienda.value, uid) else vs;
      var us' := us[uid := u.(vivienda := Some(vid), comunidad := Some(vs[vid].comunidad))];
      assert r.value == (MeterHabitante(previa, vid, uid), us');
      MismasPuertas(vs, previa);
      MismasPuertas(previa, MeterHabitante(previa, vid, uid));
      MismosEmails(us, us');
    }
  }

  method AsignarUsuarioVivienda(db: Db, actor: Actor, vid: Id, uid: Id) returns (r: Result<Id>)
    requires db.Valid()
    modifies db
    ensures db.Valid()
    ensures var p := PlanAsignar(old(db.viviendas), old(db.usuarios), actor, vid, uid);
      && (p.Err? ==> r == Err(p.failure) && db.viviendas == old(db.viviendas) && db.usuarios == old(db.usuarios))
      && (p.Ok? ==> r == Ok(vid) && db.viviendas == p.value.0 && db.usuarios == p.value.1)
    ensures db.votaciones == old(db.votaciones) && db.votos == old(db.votos)
    ensures db.comunidades == old(db.comunidades)
  {
    var p := PlanAsignar(db.viviendas, db.usuarios, actor, vid, uid);
    if p.Err? {
      return Err(p.failure);
    }
    AsignarConservaIndices(db.viviendas, db.usuarios, actor, vid, uid);
    db.viviendas, db.usuarios := p.value.0, p.value.1;
    r := Ok(vid);
  }

  // ---------------------------------------------------------------------------------------
  // Delete

  /** `$unset: { vivienda: 1 }` on every user of dwelling `vid`. */
  function SinVivienda(us: map<Id, Usuario>, vid: Id): (r: map<Id, Usuario>)
    ensures r.Keys == us.Keys
    ensures forall k :: k in r ==> r[k].vivienda != Some(vid)
    ensures forall k :: k in r && us[k].vivienda != Some(vid) ==> r[k] == us[k]
    ensures forall k :: k in r && us[k].vivienda == Some(vid) ==> r[k] == us[k].(vivienda := None)
  {
    map k | k in us :: if us[k].vivienda == Some(vid) then us[k].(vivienda := None) else us[k]
  }

  /** Deleting a dwelling and clearing its users keeps residence coherent. */
  lemma BorrarCoherente(vs: map<Id, Vivienda>, us: map<Id, Usuario>, vid: Id)
    requires Coherente(vs, us)
    ensures Coherente(vs - {vid}, SinVivienda(us, vid))
  {
  }

  /**
   * `eliminarVivienda`: 404, 403 outside the caller's community; otherwise its users lose
   * the dwelling, the dwelling is deleted, and the community's remaining sum is reported.
   * Ballots cast from the dwelling stay.
   */
  method EliminarVivienda(db: Db, actor: Actor, vid: Id) returns (r: Result<real>)
    requires db.Valid()
    modifies db
    ensures db.Valid()
    ensures vid !in old(db.viviendas) ==> r == Fail(404, DwellingNotFound) && unchanged(db)
    ensures vid in old(db.viviendas) && !Gestiona(actor, old(db.viviendas)[vid].comunidad) ==>
      r == Fail(403, Forbidden) && unchanged(db)
    ensures vid in old(db.viviendas) && Gestiona(actor, old(db.viviendas)[vid].comunidad) ==>
      && db.viviendas == old(db.viviendas) - {vid}
      && db.usuarios == SinVivienda(old(db.usuarios), vid)
      && r == Ok(SumaCoeficientes(old(db.viviendas), old(db.viviendas)[vid].comunidad, Some(vid)))
    ensures db.votaciones == old(db.votaciones) && db.votos == old(db.votos)
    ensures db.comunidades == old(db.comunidades)
  {
    if vid !in db.viviendas {
      return Fail(404, DwellingNotFound);
    }
    var c := db.viviendas[vid].comunidad;
    if !Gestiona(actor, c) {
      return Fail(403, Forbidden);
    }
    MismosEmails(db.usuarios, SinVivienda(db.usuarios, vid));
    MismasPuertas(db.viviendas, db.viviendas - {vid});
    SumaTrasBorrar(db.viviendas, vid, c);
    db.usuarios := SinVivienda(db.usuarios, vid);
    db.viviendas := db.viviendas - {vid};
    var suma := CalcularSumaCoeficientes(db, c, None);
    r := Ok(suma);
  }
}
