/** The voting-session schema: enumerations, defaults and the end-after-start validator. */
module ModeloVotacion {
  import opened Common
  import Texto

  /** Stored lifecycle state: `pendiente`, `activa`, `finalizada`. */
  datatype Estado = Pendiente | Activa | Finalizada

  /** Majority rule: `simple`, `tres_quintos`, `unanimidad`. */
  datatype TipoMayoria = Simple | TresQuintos | Unanimidad

  /** Counting system: `vivienda` (one dwelling, one vote) or `coeficiente` (weighted). */
  datatype SistemaRecuento = PorVivienda | PorCoeficiente

  /** An embedded option: its sub-document id and its label. */
  datatype Opcion = Opcion(id: Id, texto: string)

  datatype Votacion = Votacion(
    titulo: string,
    descripcion: string,
    opciones: seq<Opcion>,
    fechaInicio: Instant,
    fechaFin: Instant,
    tipoMayoria: TipoMayoria,
    sistemaRecuento: SistemaRecuento,
    estado: Estado,
    mostrarResultadosParciales: bool,
    creador: Id,
    comunidad: Id)

  /** Reading the stored `tipoMayoria` string; anything outside the enumeration is refused. */
  function ParseTipoMayoria(s: string): (r: Option<TipoMayoria>)
    ensures r == Some(Simple) <==> s == "simple"
    ensures r == Some(TresQuintos) <==> s == "tres_quintos"
    ensures r == Some(Unanimidad) <==> s == "unanimidad"
  {
    if s == "simple" then Some(Simple)
    else if s == "tres_quintos" then Some(TresQuintos)
    else if s == "unanimidad" then Some(Unanimidad)
    else None
  }

  /** Reading the stored `sistemaRecuento` string: only `vivienda` and `coeficiente` are admitted. */
  function ParseSistemaRecuento(s: string): (r: Option<SistemaRecuento>)
    ensures r == Some(PorVivienda) <==> s == "vivienda"
    ensures r == Some(PorCoeficiente) <==> s == "coeficiente"
    ensures r.None? <==> s != "vivienda" && s != "coeficiente"
  {
    if s == "vivienda" then Some(PorVivienda)
    else if s == "coeficiente" then Some(PorCoeficiente)
    else None
  }

  /** The controllers branch on a `simple` counting system that the schema never stores. */
  lemma SimpleNoEsSistemaRecuento()
    ensures ParseSistemaRecuento("simple").None?
  {
  }

  /** Reading the stored `estado` string. */
  function ParseEstado(s: string): (r: Option<Estado>)
    ensures r == Some(Pendiente) <==> s == "pendiente"
    ensures r == Some(Activa) <==> s == "activa"
    ensures r == Some(Finalizada) <==> s == "finalizada"
  {
    if s == "pendiente" then Some(Pendiente)
    else if s == "activa" then Some(Activa)
    else if s == "finalizada" then Some(Finalizada)
    else None
  }

  /** A required trimmed string: present and not blank once trimmed. */
  predicate Requerido(s: string)
  {
    Texto.Trim(s) != []
  }

  /**
   * What the schema checks on every save: required non-blank texts (titles, description,
   * every option label) and `fechaFin` strictly after `fechaInicio`. Texts are stored trimmed.
   * No minimum number of options is enforced.
   */
  predicate EsValida(v: Votacion)
  {
    && Texto.Recortado(v.titulo) && Texto.Recortado(v.descripcion)
    && (forall i :: 0 <= i < |v.opciones| ==> Texto.Recortado(v.opciones[i].texto))
    && v.fechaFin > v.fechaInicio
  }

  /** The trimming setters applied to every text path. */
  function Normalizar(v: Votacion): (r: Votacion)
    ensures r.titulo == Texto.Trim(v.titulo) && r.descripcion == Texto.Trim(v.descripcion)
    ensures |r.opciones| == |v.opciones|
    ensures forall i :: 0 <= i < |v.opciones| ==>
      r.opciones[i] == Opcion(v.opciones[i].id, Texto.Trim(v.opciones[i].texto))
    ensures r.fechaInicio == v.fechaInicio && r.fechaFin == v.fechaFin && r.estado == v.estado
    ensures r.comunidad == v.comunidad && r.creador == v.creador
  {
    v.(titulo := Texto.Trim(v.titulo),
       descripcion := Texto.Trim(v.descripcion),
       opciones := NormalizarOpciones(v.opciones))
  }

  /** The trimming setter of every option label, ids kept. */
  function NormalizarOpciones(os: seq<Opcion>): (r: seq<Opcion>)
    ensures |r| == |os|
    ensures forall i :: 0 <= i < |os| ==> r[i] == Opcion(os[i].id, Texto.Trim(os[i].texto))
  {
    if os == [] then []
    else NormalizarOpciones(os[..|os| - 1]) + [Opcion(os[|os| - 1].id, Texto.Trim(os[|os| - 1].texto))]
  }

  /** Saving a document: setters, then validation; a failed validation is a 400. */
  function Guardar(v: Votacion): (r: Result<Votacion>)
    ensures r.Ok? <==>
      && Requerido(v.titulo) && Requerido(v.descripcion)
      && (forall i :: 0 <= i < |v.opciones| ==> Requerido(v.opciones[i].texto))
      && v.fechaFin > v.fechaInicio
    ensures r.Ok? ==> EsValida(r.value) && r.value == Normalizar(v)
    ensures r.Err? ==> r.failure == Failure(400, SchemaValidation)
  {
    NormalizarValida(v);
    var n := Normalizar(v);
    if EsValida(n) then Ok(n) else Fail(400, SchemaValidation)
  }

  lemma NormalizarValida(v: Votacion)
    ensures EsValida(Normalizar(v)) <==>
      && Requerido(v.titulo) && Requerido(v.descripcion)
      && (forall i :: 0 <= i < |v.opciones| ==> Requerido(v.opciones[i].texto))
      && v.fechaFin > v.fechaInicio
  {
    var n := Normalizar(v);
    Texto.RecortadoTrim(v.titulo);
    Texto.RecortadoTrim(v.descripcion);
    OpcionesNormalizadas(v.opciones, n.opciones);
  }

  lemma OpcionesNormalizadas(os: seq<Opcion>, ns: seq<Opcion>)
    requires |ns| == |os|
    requires forall i :: 0 <= i < |os| ==> ns[i] == Opcion(os[i].id, Texto.Trim(os[i].texto))
    ensures (forall i :: 0 <= i < |ns| ==> Texto.Recortado(ns[i].texto))
      <==> (forall i :: 0 <= i < |os| ==> Requerido(os[i].texto))
  {
    forall i | 0 <= i < |os|
      ensures Texto.Recortado(ns[i].texto) <==> Requerido(os[i].texto)
    {
      Texto.RecortadoTrim(os[i].texto);
    }
  }

  /**
   * A body value for a typed path as the schema casts it: `Castea(v)` when it casts to `v`,
   * `NoCastea` when it does not (a `Date` path sent `"abc"`, a `Boolean` path sent `"quizá"`).
   */
  datatype Crudo<T> = Castea(valor: T) | NoCastea

  /** Nothing was sent, or what was sent casts. */
  predicate Casteable<T>(o: Option<Crudo<T>>)
  {
    o.Some? ==> o.value.Castea?
  }

  /** The value a path takes: the cast of the sent value, else the default `d`. */
  function Leer<T>(o: Option<Crudo<T>>, d: T): T
  {
    if o.Some? && o.value.Castea? then o.value.valor else d
  }

  /**
   * A sent enumeration string checked by the `enum` validator: it casts to the value
   * `parse` reads from it, and a string naming no value does not cast.
   */
  function Enumerado<T(==)>(o: Option<string>, parse: string -> Option<T>): (r: Option<Crudo<T>>)
    ensures o.None? <==> r.None?
    ensures r.Some? ==> (r.value.NoCastea? <==> parse(o.value).None?)
    ensures r.Some? && r.value.Castea? ==> parse(o.value) == Some(r.value.valor)
  {
    if o.None? then None
    else if parse(o.value).None? then Some(NoCastea)
    else Some(Castea(parse(o.value).value))
  }

  /** The body of a create request, as sent; `None` means the field was not sent. */
  datatype Alta = Alta(
    titulo: string,
    descripcion: string,
    opciones: seq<Opcion>,
    fechaInicio: Option<Crudo<Instant>>,
    fechaFin: Option<Crudo<Instant>>,
    tipoMayoria: Option<string>,
    sistemaRecuento: Option<string>,
    estado: Option<string>,
    mostrarResultadosParciales: Option<Crudo<bool>>)

  /** Every value of a create body casts: the dates and the flag, and each enumeration string. */
  predicate AltaCastea(a: Alta)
  {
    && Casteable(a.fechaInicio) && Casteable(a.fechaFin) && Casteable(a.mostrarResultadosParciales)
    && Casteable(Enumerado(a.tipoMayoria, ParseTipoMayoria))
    && Casteable(Enumerado(a.sistemaRecuento, ParseSistemaRecuento))
    && Casteable(Enumerado(a.estado, ParseEstado))
  }

  function Get<T>(o: Option<T>, d: T): (r: T)
    ensures o.Some? ==> r == o.value
    ensures o.None? ==> r == d
  {
    if o.Some? then o.value else d
  }

  /**
   * `Votacion.create`: the casts, the schema defaults (start now, `simple`, `vivienda`,
   * `pendiente`, partial results hidden), then validation. A value that does not cast, an
   * enumeration string outside its values and a missing `fechaFin` all fail with 400.
   */
  function Crear(a: Alta, creador: Id, comunidad: Id, now: Instant): (r: Result<Votacion>)
    ensures a.fechaFin.None? || !AltaCastea(a) ==> r == Fail(400, SchemaValidation)
    ensures r.Ok? <==>
      && a.fechaFin.Some? && AltaCastea(a)
      && Requerido(a.titulo) && Requerido(a.descripcion)
      && (forall i :: 0 <= i < |a.opciones| ==> Requerido(a.opciones[i].texto))
      && a.fechaFin.value.valor > Leer(a.fechaInicio, now)
    ensures r.Err? ==> r.failure == Failure(400, SchemaValidation)
    ensures r.Ok? ==> EsValida(r.value)
    ensures r.Ok? ==> a.fechaFin == Some(Castea(r.value.fechaFin))
    ensures r.Ok? ==> (a.fechaInicio == Some(Castea(r.value.fechaInicio)) || (a.fechaInicio.None? && r.value.fechaInicio == now))
    ensures r.Ok? && a.tipoMayoria.Some? ==> ParseTipoMayoria(a.tipoMayoria.value) == Some(r.value.tipoMayoria)
    ensures r.Ok? && a.tipoMayoria.None? ==> r.value.tipoMayoria == Simple
    ensures r.Ok? && a.sistemaRecuento.Some? ==> ParseSistemaRecuento(a.sistemaRecuento.value) == Some(r.value.sistemaRecuento)
    ensures r.Ok? && a.sistemaRecuento.None? ==> r.value.sistemaRecuento == PorVivienda
    ensures r.Ok? && a.estado.Some? ==> ParseEstado(a.estado.value) == Some(r.value.estado)
    ensures r.Ok? && a.estado.None? ==> r.value.estado == Pendiente
    ensures r.Ok? ==> r.value.mostrarResultadosParciales == Leer(a.mostrarResultadosParciales, false)
    ensures r.Ok? ==> r.value.creador == creador && r.value.comunidad == comunidad
  {
    if a.fechaFin.None? || !AltaCastea(a) then Fail(400, SchemaValidation)
    else
      Guardar(Votacion(a.titulo, a.descripcion, a.opciones, Leer(a.fechaInicio, now), a.fechaFin.value.valor,
        Leer(Enumerado(a.tipoMayoria, ParseTipoMayoria), Simple),
        Leer(Enumerado(a.sistemaRecuento, ParseSistemaRecuento), PorVivienda),
        Leer(Enumerado(a.estado, ParseEstado), Pendiente),
        Leer(a.mostrarResultadosParciales, false), creador, comunidad))
  }

  /** A create body whose `tipoMayoria` is `mayoria`, outside the enumeration, is refused with 400. */
  lemma MayoriaFueraDeEnum(a: Alta, creador: Id, comunidad: Id, now: Instant)
    requires a.tipoMayoria == Some("mayoria")
    ensures Crear(a, creador, comunidad, now) == Fail(400, SchemaValidation)
  {
  }

  /** Whether the session offers option `id`. */
  predicate TieneOpcion(v: Votacion, id: Id)
  {
    exists o :: o in v.opciones && o.id == id
  }
}
