/**
 * The session handlers: list, read, create, update, start, finish, cast a ballot, read the results
 * (closing an expired session on the way), check for a ballot, delete, and the
 * participation report.
 */
module ControladorVotacion {
  import opened Common
  import opened ModeloVotacion
  import opened ModeloVoto
  import opened ModeloUsuario
  import ModeloVivienda
  import opened Almacen
  import opened Recuento
  import Informe

  // ---------------------------------------------------------------------------------------
  // List and read

  /**
   * The community `getVotaciones` filters by: the `comunidad` query parameter when one is
   * sent, whoever the caller; else a non-superadmin's own community; else none. A caller
   * whose community reference is empty (never set, or the community was deleted) is not
   * filtered.
   */
  function FiltroVotaciones(actor: Actor, consulta: Option<Id>): (f: Option<Id>)
    ensures consulta.Some? ==> f == consulta
    ensures consulta.None? && actor.rol != Superadmin ==> f == actor.comunidad
    ensures consulta.None? && actor.rol == Superadmin ==> f.None?
  {
    if consulta.Some? then consulta
    else if actor.rol != Superadmin && actor.comunidad.Some? then actor.comunidad
    else None
  }

  /** `getVotaciones`: the sessions of the filtering community, or every session. */
  method GetVotaciones(db: Db, actor: Actor, consulta: Option<Id>) returns (ids: seq<Id>)
    ensures var f := FiltroVotaciones(actor, consulta);
      forall k :: k in ids <==> k in db.votaciones && (f.None? || db.votaciones[k].comunidad == f.value)
    ensures forall i, j :: 0 <= i < j < |ids| ==> ids[i] != ids[j]
  {
    var f := FiltroVotaciones(actor, consulta);
    ids := Enumerar(set k | k in db.votaciones && (f.None? || db.votaciones[k].comunidad == f.value));
  }

  /** `getVotacion`: any caller of the route reads any session; 404 for an unknown id. */
  function VerVotacion(vs: map<Id, Votacion>, id: Id): (r: Result<Votacion>)
    ensures r.Ok? <==> id in vs
    ensures r.Ok? ==> r.value == vs[id]
    ensures r.Err? ==> r == Fail(404, SessionNotFound)
  {
    if id in vs then Ok(vs[id]) else Fail(404, SessionNotFound)
  }

  // ---------------------------------------------------------------------------------------
  // Create

  /**
   * `crearVotacion`: without a community in the body, a superadmin is refused and anyone
   * else uses their own (refused if they have none); a non-superadmin may only create in
   * their own community; then the schema defaults and validation.
   */
  function PlanCrear(actor: Actor, alta: Alta, comunidad: Option<Id>, now: Instant): Result<Votacion>
  {
    if comunidad.None? && actor.rol == Superadmin then Fail(400, CommunityRequired)
    else if comunidad.None? && actor.comunidad.None? then Fail(400, NoCommunityAssigned)
    else
      var c := if comunidad.Some? then comunidad.value else actor.comunidad.value;
      if actor.rol != Superadmin && actor.comunidad != Some(c) then Fail(403, OtherCommunity)
      else Crear(alta, actor.id, c, now)
  }

  /**
   * Who may create where: the refusals of `crearVotacion`, and a created session is valid,
   * belongs to its creator and lies in the requested community, which for anyone but a
   * superadmin is their own.
   */
  lemma PlanCrearCorrecto(actor: Actor, alta: Alta, comunidad: Option<Id>, now: Instant)
    ensures var r := PlanCrear(actor, alta, comunidad, now);
      && (comunidad.None? && actor.rol == Superadmin ==> r == Fail(400, CommunityRequired))
      && (comunidad.None? && actor.rol != Superadmin && actor.comunidad.None? ==> r == Fail(400, NoCommunityAssigned))
      && (comunidad.Some? && actor.rol != Superadmin && actor.comunidad != comunidad ==> r == Fail(403, OtherCommunity))
      && (r.Ok? ==> r.value.creador == actor.id && ModeloVotacion.EsValida(r.value))
      && (r.Ok? && comunidad.Some? ==> r.value.comunidad == comunidad.value)
      && (r.Ok? && actor.rol != Superadmin ==> actor.comunidad == Some(r.value.comunidad))
      && (r.Ok? && alta.estado.None? ==> r.value.estado == Pendiente)
      && (r.Ok? && alta.estado.Some? ==> ParseEstado(alta.estado.value) == Some(r.value.estado))
      && (!AltaCastea(alta) ==> r.Err?)
      && (comunidad.Some? && (actor.rol == Superadmin || actor.comunidad == comunidad) && !AltaCastea(alta) ==>
          r == Fail(400, SchemaValidation))
  {
  }

  method CrearVotacion(db: Db, actor: Actor, alta: Alta, comunidad: Option<Id>, now: Instant, id: Id)
    returns (r: Result<Id>)
    requires db.Valid() && id !in db.votaciones
    modifies db
    ensures db.Valid()
    ensures var p := PlanCrear(actor, alta, comunidad, now);
      && (p.Ok? ==> r == Ok(id) && db.votaciones == old(db.votaciones)[id := p.value])
      && (p.Err? ==> r == Err(p.failure) && db.votaciones == old(db.votaciones))
    ensures db.votos == old(db.votos) && db.viviendas == old(db.viviendas)
    ensures db.usuarios == old(db.usuarios) && db.comunidades == old(db.comunidades)
  {
    var p := PlanCrear(actor, alta, comunidad, now);
    if p.Err? {
      return Err(p.failure);
    }
    assert ModeloVotacion.EsValida(p.value);
    db.votaciones := db.votaciones[id := p.value];
    r := Ok(id);
  }

  // ---------------------------------------------------------------------------------------
  // Update

  /**
   * The schema keys of an update body, `creador` included, as sent; `None` means the key was
   * not sent. Dates and the flag are raw values the schema may fail to cast, and the three
   * enumerations are the strings sent.
   */
  datatype Cambios = Cambios(
    titulo: Option<string>,
    descripcion: Option<string>,
    opciones: Option<seq<Opcion>>,
    fechaInicio: Option<Crudo<Instant>>,
    fechaFin: Option<Crudo<Instant>>,
    tipoMayoria: Option<string>,
    sistemaRecuento: Option<string>,
    estado: Option<string>,
    mostrarResultadosParciales: Option<Crudo<bool>>,
    creador: Option<Id>,
    comunidad: Option<Id>)

  /** Every value of an update body casts: the dates and the flag, and each enumeration string. */
  predicate CambiosCastean(c: Cambios)
  {
    && Casteable(c.fechaInicio) && Casteable(c.fechaFin) && Casteable(c.mostrarResultadosParciales)
    && Casteable(Enumerado(c.tipoMayoria, ParseTipoMayoria))
    && Casteable(Enumerado(c.sistemaRecuento, ParseSistemaRecuento))
    && Casteable(Enumerado(c.estado, ParseEstado))
  }

  /**
   * The date the handler's own check compares: `new Date(sent)` when a date is sent, else the
   * stored one. `None` is the invalid date of a value that does not parse.
   */
  function FechaManual(o: Option<Crudo<Instant>>, d: Instant): (r: Option<Instant>)
    ensures o.None? ==> r == Some(d)
    ensures o.Some? && o.value.Castea? ==> r == Some(o.value.valor)
    ensures o.Some? && o.value.NoCastea? ==> r.None?
  {
    if o.None? then Some(d) else if o.value.Castea? then Some(o.value.valor) else None
  }

  /**
   * `fechaFin <= fechaInicio` on the merged dates; any comparison with an invalid date is
   * false, so an unparsable date slips past this check.
   */
  predicate FinNoPosterior(v: Votacion, c: Cambios)
  {
    var i := FechaManual(c.fechaInicio, v.fechaInicio);
    var f := FechaManual(c.fechaFin, v.fechaFin);
    i.Some? && f.Some? && f.value <= i.value
  }

  /**
   * `Object.keys(req.body).forEach(key => votacion[key] = req.body[key])` on a body whose
   * values all cast: every sent key is copied, each enumeration string read as its value.
   */
  function Copiar(v: Votacion, c: Cambios): Votacion
  {
    v.(titulo := Get(c.titulo, v.titulo),
       descripcion := Get(c.descripcion, v.descripcion),
       opciones := Get(c.opciones, v.opciones),
       fechaInicio := Leer(c.fechaInicio, v.fechaInicio),
       fechaFin := Leer(c.fechaFin, v.fechaFin),
       tipoMayoria := Leer(Enumerado(c.tipoMayoria, ParseTipoMayoria), v.tipoMayoria),
       sistemaRecuento := Leer(Enumerado(c.sistemaRecuento, ParseSistemaRecuento), v.sistemaRecuento),
       estado := Leer(Enumerado(c.estado, ParseEstado), v.estado),
       mostrarResultadosParciales := Leer(c.mostrarResultadosParciales, v.mostrarResultadosParciales),
       creador := Get(c.creador, v.creador),
       comunidad := Get(c.comunidad, v.comunidad))
  }

  /**
   * `actualizarVotacion`: refused once ballots exist unless the session is still pending,
   * and when the merged end is not after the merged start; otherwise every sent key is
   * copied, `estado` included, and the session saved, which fails on a value that does not
   * cast or names no value of its enumeration.
   */
  function PlanActualizar(v: Votacion, tieneVotos: bool, c: Cambios): Result<Votacion>
  {
    if tieneVotos && v.estado != Pendiente then Fail(400, SessionHasBallots)
    else if FinNoPosterior(v, c) then Fail(400, EndNotAfterStart)
    else if !CambiosCastean(c) then Fail(400, SchemaValidation)
    else ModeloVotacion.Guardar(Copiar(v, c))
  }

  /**
   * The update's refusals, and an accepted update is a valid session holding every sent key
   * (texts trimmed, enumerations read), whatever `estado` or `creador` was sent; the creator
   * changes only when one is sent.
   */
  lemma PlanActualizarCorrecto(v: Votacion, tieneVotos: bool, c: Cambios)
    ensures var r := PlanActualizar(v, tieneVotos, c);
      && (tieneVotos && v.estado != Pendiente ==> r == Fail(400, SessionHasBallots))
      && (!(tieneVotos && v.estado != Pendiente) && FinNoPosterior(v, c) ==> r == Fail(400, EndNotAfterStart))
      && (!(tieneVotos && v.estado != Pendiente) && !FinNoPosterior(v, c) && !CambiosCastean(c) ==>
          r == Fail(400, SchemaValidation))
      && (r.Ok? ==> CambiosCastean(c) && ModeloVotacion.EsValida(r.value) && r.value == Normalizar(Copiar(v, c)))
      && (r.Ok? && c.estado.None? ==> r.value.estado == v.estado)
      && (r.Ok? && c.estado.Some? ==> ParseEstado(c.estado.value) == Some(r.value.estado))
      && (r.Ok? && c.tipoMayoria.Some? ==> ParseTipoMayoria(c.tipoMayoria.value) == Some(r.value.tipoMayoria))
      && (r.Ok? && c.sistemaRecuento.Some? ==> ParseSistemaRecuento(c.sistemaRecuento.value) == Some(r.value.sistemaRecuento))
      && (r.Ok? ==> r.value.comunidad == Get(c.comunidad, v.comunidad))
      && (r.Ok? ==> r.value.fechaInicio < r.value.fechaFin && r.value.creador == Get(c.creador, v.creador))
  {
  }

  /** The body that only sends `estado`. */
  function SoloEstado(e: string): Cambios
  {
    Cambios(None, None, None, None, None, None, None, Some(e), None, None, None)
  }

  /** The body that only sends `creador`. */
  function SoloCreador(u: Id): Cambios
  {
    Cambios(None, None, None, None, None, None, None, None, None, Some(u), None)
  }

  /**
   * Because `creador` is copied like any other key, any caller who may update a pending
   * session can hand it to another creator.
   */
  lemma CreadorReasignable(v: Votacion, tieneVotos: bool, u: Id)
    requires ModeloVotacion.EsValida(v) && v.estado == Pendiente
    ensures PlanActualizar(v, tieneVotos, SoloCreador(u)) == Ok(v.(creador := u))
  {
    assert Copiar(v, SoloCreador(u)) == v.(creador := u);
    GuardarValida(v.(creador := u));
  }

  /**
   * Because `estado` is copied like any other key, an active session that has no ballot yet
   * can be sent back to pending by an update.
   */
  lemma ActivaVuelveAPendiente(v: Votacion)
    requires ModeloVotacion.EsValida(v) && v.estado == Activa
    ensures PlanActualizar(v, false, SoloEstado("pendiente")) == Ok(v.(estado := Pendiente))
  {
    assert Copiar(v, SoloEstado("pendiente")) == v.(estado := Pendiente);
    GuardarValida(v.(estado := Pendiente));
  }

  /**
   * An update that sends `estado: "cerrada"`, outside the enumeration, passes the handler's
   * own checks and is refused by the save with 400.
   */
  lemma EstadoFueraDeEnum(v: Votacion)
    requires ModeloVotacion.EsValida(v) && v.estado == Pendiente
    ensures PlanActualizar(v, true, SoloEstado("cerrada")) == Fail(400, SchemaValidation)
  {
    assert !FinNoPosterior(v, SoloEstado("cerrada"));
  }

  /**
   * An unparsable `fechaFin` is an invalid date, so the handler's comparison lets it through,
   * and the save refuses it with 400.
   */
  lemma FechaInvalidaPasaComparacion(v: Votacion, c: Cambios)
    requires c.fechaFin == Some(NoCastea)
    ensures !FinNoPosterior(v, c)
    ensures PlanActualizar(v, false, c) == Fail(400, SchemaValidation)
  {
  }

  method ActualizarVotacion(db: Db, id: Id, c: Cambios) returns (r: Result<Id>)
    requires db.Valid()
    modifies db
    ensures db.Valid()
    ensures id !in old(db.votaciones) ==> r == Fail(404, SessionNotFound) && db.votaciones == old(db.votaciones)
    ensures id in old(db.votaciones) ==>
      var p := PlanActualizar(old(db.votaciones)[id], VotosDe(old(db.votos), id) != {}, c);
      && (p.Ok? ==> r == Ok(id) && db.votaciones == old(db.votaciones)[id := p.value])
      && (p.Err? ==> r == Err(p.failure) && db.votaciones == old(db.votaciones))
    ensures db.votos == old(db.votos) && db.viviendas == old(db.viviendas)
    ensures db.usuarios == old(db.usuarios) && db.comunidades == old(db.comunidades)
  {
    if id !in db.votaciones {
      return Fail(404, SessionNotFound);
    }
    var p := PlanActualizar(db.votaciones[id], VotosDe(db.votos, id) != {}, c);
    if p.Err? {
      return Err(p.failure);
    }
    assert ModeloVotacion.EsValida(p.value);
    db.votaciones := db.votaciones[id := p.value];
    r := Ok(id);
  }

  // ---------------------------------------------------------------------------------------
  // Start and finish

  /**
   * `iniciarVotacion`: only from pending; the session becomes active, starts now and is
   * saved again.
   */
  function PlanIniciar(v: Votacion, now: Instant): Result<Votacion>
  {
    if v.estado != Pendiente then Fail(400, SessionAlreadyStarted)
    else ModeloVotacion.Guardar(v.(estado := Activa, fechaInicio := now))
  }

  /** `finalizarVotacion`: only from active; the session is saved as finished. */
  function PlanFinalizar(v: Votacion): Result<Votacion>
  {
    if v.estado != Activa then Fail(400, SessionNotActive)
    else ModeloVotacion.Guardar(v.(estado := Finalizada))
  }

  /**
   * On a stored session, starting succeeds exactly from pending before the end, and the save
   * re-validates the dates, so starting at or after the end is a validation error.
   */
  lemma PlanIniciarCorrecto(v: Votacion, now: Instant)
    requires ModeloVotacion.EsValida(v)
    ensures v.estado != Pendiente ==> PlanIniciar(v, now) == Fail(400, SessionAlreadyStarted)
    ensures v.estado == Pendiente && now < v.fechaFin ==> PlanIniciar(v, now) == Ok(v.(estado := Activa, fechaInicio := now))
    ensures v.estado == Pendiente && now >= v.fechaFin ==> PlanIniciar(v, now) == Fail(400, SchemaValidation)
  {
    if v.estado == Pendiente && now < v.fechaFin {
      GuardarValida(v.(estado := Activa, fechaInicio := now));
    }
  }

  /** On a stored session, finishing succeeds exactly from active and changes nothing else. */
  lemma PlanFinalizarCorrecto(v: Votacion)
    requires ModeloVotacion.EsValida(v)
    ensures v.estado != Activa ==> PlanFinalizar(v) == Fail(400, SessionNotActive)
    ensures v.estado == Activa ==> PlanFinalizar(v) == Ok(v.(estado := Finalizada))
  {
    if v.estado == Activa {
      GuardarValida(v.(estado := Finalizada));
    }
  }

  /** The explicit transitions only go forward: pending to active, active to finished, then no restart. */
  lemma TransicionesExplicitas(v: Votacion, now: Instant)
    requires ModeloVotacion.EsValida(v)
    ensures PlanIniciar(v, now).Ok? <==> v.estado == Pendiente && now < v.fechaFin
    ensures PlanIniciar(v, now).Ok? ==> PlanIniciar(v, now).value.estado == Activa
    ensures PlanFinalizar(v).Ok? <==> v.estado == Activa
    ensures PlanFinalizar(v).Ok? ==> PlanFinalizar(v).value.estado == Finalizada
    ensures PlanFinalizar(v).Ok? ==> PlanIniciar(PlanFinalizar(v).value, now).Err?
  {
    PlanIniciarCorrecto(v, now);
    PlanFinalizarCorrecto(v);
  }

  /** Applies a transition plan to session `id`. */
  method Transicion(db: Db, id: Id, iniciar: bool, now: Instant) returns (r: Result<Id>)
    requires db.Valid()
    modifies db
    ensures db.Valid()
    ensures id !in old(db.votaciones) ==> r == Fail(404, SessionNotFound) && db.votaciones == old(db.votaciones)
    ensures id in old(db.votaciones) ==>
      var v := old(db.votaciones)[id];
      var p := if iniciar then PlanIniciar(v, now) else PlanFinalizar(v);
      && (p.Ok? ==> r == Ok(id) && db.votaciones == old(db.votaciones)[id := p.value])
      && (p.Err? ==> r == Err(p.failure) && db.votaciones == old(db.votaciones))
    ensures db.votos == old(db.votos) && db.viviendas == old(db.viviendas)
    ensures db.usuarios == old(db.usuarios) && db.comunidades == old(db.comunidades)
  {
    if id !in db.votaciones {
      return Fail(404, SessionNotFound);
    }
    var v := db.votaciones[id];
    var p := if iniciar then PlanIniciar(v, now) else PlanFinalizar(v);
    if p.Err? {
      return Err(p.failure);
    }
    assert ModeloVotacion.EsValida(p.value);
    db.votaciones := db.votaciones[id := p.value];
    r := Ok(id);
  }

  // ---------------------------------------------------------------------------------------
  // Cast a ballot

  /** Every check of `emitirVoto` passes. */
  predicate PuedeEmitir(votaciones: map<Id, Votacion>, viviendas: map<Id, ModeloVivienda.Vivienda>,
    votos: map<Id, VotoEmitido>, actor: Actor, votacionId: Id, opcionId: Id)
  {
    && votacionId in votaciones
    && votaciones[votacionId].estado == Activa
    && TieneOpcion(votaciones[votacionId], opcionId)
    && actor.vivienda.Some?
    && actor.vivienda.value in viviendas && viviendas[actor.vivienda.value].derechoVoto
    && !Existe(votos, (actor.vivienda.value, votacionId))
  }

  /**
   * `emitirVoto`'s guard chain, in order: the session exists, is stored active (the dates are
   * not looked at), offers the option; the user has a dwelling, which exists and may vote,
   * and has not voted in this session. The ballot carries the session's community.
   */
  function PlanVoto(votaciones: map<Id, Votacion>, viviendas: map<Id, ModeloVivienda.Vivienda>,
    votos: map<Id, VotoEmitido>, actor: Actor, votacionId: Id, opcionId: Id, now: Instant): (r: Result<VotoEmitido>)
    ensures votacionId !in votaciones ==> r == Fail(404, SessionNotFound)
    ensures votacionId in votaciones && votaciones[votacionId].estado != Activa ==> r == Fail(400, SessionNotActive)
    ensures (votacionId in votaciones && votaciones[votacionId].estado == Activa
      && !TieneOpcion(votaciones[votacionId], opcionId)) ==> r == Fail(404, OptionNotFound)
    ensures (votacionId in votaciones && votaciones[votacionId].estado == Activa
      && TieneOpcion(votaciones[votacionId], opcionId) && actor.vivienda.None?) ==> r == Fail(400, NoDwellingAssigned)
    ensures (votacionId in votaciones && votaciones[votacionId].estado == Activa
      && TieneOpcion(votaciones[votacionId], opcionId) && actor.vivienda.Some?
      && !(actor.vivienda.value in viviendas && viviendas[actor.vivienda.value].derechoVoto)) ==>
      r == Fail(403, NoVotingRight)
    ensures r.Ok? <==> PuedeEmitir(votaciones, viviendas, votos, actor, votacionId, opcionId)
    ensures r.Ok? ==>
      r.value == VotoEmitido(votacionId, actor.vivienda.value, actor.id, opcionId, votaciones[votacionId].comunidad, now)
    ensures r.Err? && r.failure.reason == AlreadyVoted ==>
      r.failure.status == 400 && Existe(votos, (actor.vivienda.value, votacionId))
  {
    if votacionId !in votaciones then Fail(404, SessionNotFound)
    else if votaciones[votacionId].estado != Activa then Fail(400, SessionNotActive)
    else if !TieneOpcion(votaciones[votacionId], opcionId) then Fail(404, OptionNotFound)
    else if actor.vivienda.None? then Fail(400, NoDwellingAssigned)
    else if !(actor.vivienda.value in viviendas && viviendas[actor.vivienda.value].derechoVoto) then Fail(403, NoVotingRight)
    else if Existe(votos, (actor.vivienda.value, votacionId)) then Fail(400, AlreadyVoted)
    else Ok(VotoEmitido(votacionId, actor.vivienda.value, actor.id, opcionId, votaciones[votacionId].comunidad, now))
  }

  /**
   * The guard reads the stored state only: an active session whose end has passed still
   * takes ballots until something closes it.
   */
  lemma VotoTrasElFin(votaciones: map<Id, Votacion>, viviendas: map<Id, ModeloVivienda.Vivienda>,
    votos: map<Id, VotoEmitido>, actor: Actor, votacionId: Id, opcionId: Id, now: Instant)
    requires PuedeEmitir(votaciones, viviendas, votos, actor, votacionId, opcionId)
    requires votaciones[votacionId].fechaFin < now
    ensures PlanVoto(votaciones, viviendas, votos, actor, votacionId, opcionId, now).Ok?
  {
  }

  /** A ballot the guard lets through is one the unique index accepts. */
  lemma PlanVotoPasaIndice(votaciones: map<Id, Votacion>, viviendas: map<Id, ModeloVivienda.Vivienda>,
    votos: map<Id, VotoEmitido>, actor: Actor, votacionId: Id, opcionId: Id, now: Instant, id: Id)
    requires id !in votos
    requires PlanVoto(votaciones, viviendas, votos, actor, votacionId, opcionId, now).Ok?
    ensures ModeloVoto.Insertar(votos, id, PlanVoto(votaciones, viviendas, votos, actor, votacionId, opcionId, now).value).Ok?
  {
  }

  /**
   * Casting a ballot: the guard chain, then the insert; when the session shows partial
   * results they are computed as the results handler does.
   */
  method EmitirVoto(db: Db, actor: Actor, votacionId: Id, opcionId: Id, now: Instant, id: Id)
    returns (r: Result<Id>, parciales: Option<Resultados>)
    requires db.Valid() && id !in db.votos
    modifies db
    ensures db.Valid()
    ensures var p := PlanVoto(old(db.votaciones), old(db.viviendas), old(db.votos), actor, votacionId, opcionId, now);
      && (p.Ok? ==> r == Ok(id) && db.votos == old(db.votos)[id := p.value])
      && (p.Err? ==> r == Err(p.failure) && db.votos == old(db.votos) && parciales.None?)
    ensures parciales.Some? <==>
      (r.Ok? && votacionId in db.votaciones && db.votaciones[votacionId].mostrarResultadosParciales)
    ensures parciales.Some? ==> exists ids, ps ::
      Leidas(db.votos, db.viviendas, votacionId, ids, ps)
      && Recuenta(parciales.value, db.votaciones[votacionId], db.viviendas, ps)
    ensures parciales.Some? ==> parciales.value.totalVotos <= |VotosDe(db.votos, votacionId)|
    ensures db.votaciones == old(db.votaciones) && db.viviendas == old(db.viviendas)
    ensures db.usuarios == old(db.usuarios) && db.comunidades == old(db.comunidades)
  {
    parciales := None;
    var p := PlanVoto(db.votaciones, db.viviendas, db.votos, actor, votacionId, opcionId, now);
    if p.Err? {
      return Err(p.failure), None;
    }
    PlanVotoPasaIndice(db.votaciones, db.viviendas, db.votos, actor, votacionId, opcionId, now, id);
    Registrar(db, id, p.value);
    r := Ok(id);
    if db.votaciones[votacionId].mostrarResultadosParciales {
      var res, ids, ps := Calcular(db, votacionId);
      parciales := Some(res);
      assert Leidas(db.votos, db.viviendas, votacionId, ids, ps);
    }
  }

  /** `VotoEmitido.create`: the insert under the unique (dwelling, session) index. */
  method Registrar(db: Db, id: Id, voto: VotoEmitido)
    requires db.Valid() && id !in db.votos && !Existe(db.votos, ModeloVoto.Clave(voto))
    modifies db
    ensures db.Valid() && db.votos == old(db.votos)[id := voto]
    ensures db.votaciones == old(db.votaciones) && db.viviendas == old(db.viviendas)
    ensures db.usuarios == old(db.usuarios) && db.comunidades == old(db.comunidades)
  {
    InsertarConservaIndice(db.votos, id, voto);
    db.votos := db.votos[id := voto];
  }

  /** One cast request. */
  datatype Peticion = Peticion(actor: Actor, votacionId: Id, opcionId: Id, now: Instant)

  /**
   * Any sequence of casts, each under a fresh ballot id, leaves at most one ballot per
   * (dwelling, session) pair.
   */
  method EmitirVarios(db: Db, peticiones: seq<Peticion>, ids: seq<Id>)
    requires db.Valid() && |ids| == |peticiones|
    requires forall i, j :: 0 <= i < j < |ids| ==> ids[i] != ids[j]
    requires forall i :: 0 <= i < |ids| ==> ids[i] !in db.votos
    modifies db
    ensures db.Valid()
    ensures forall k :: |ConClave(db.votos, k)| <= 1
    ensures forall k :: k in old(db.votos) ==> k in db.votos && db.votos[k] == old(db.votos)[k]
  {
    for i := 0 to |peticiones|
      invariant db.Valid()
      invariant forall j :: i <= j < |ids| ==> ids[j] !in db.votos
      invariant forall k :: k in old(db.votos) ==> k in db.votos && db.votos[k] == old(db.votos)[k]
    {
      var q := peticiones[i];
      var r, parciales := EmitirVoto(db, q.actor, q.votacionId, q.opcionId, q.now, ids[i]);
    }
    forall k ensures |ConClave(db.votos, k)| <= 1 {
      ComoMucho(db.votos, k);
    }
  }

  // ---------------------------------------------------------------------------------------
  // Results

  /** A ballot as the tally reads it: the populated dwelling gives its coefficient, or null. */
  function PapeletaDe(votos: map<Id, VotoEmitido>, viviendas: map<Id, ModeloVivienda.Vivienda>, k: Id): Papeleta
    requires k in votos
  {
    var v := votos[k];
    Papeleta(v.opcionElegida, if v.vivienda in viviendas then Some(viviendas[v.vivienda].coeficiente) else None)
  }

  /** A results read closes a session past its end that is not finished yet, pending ones included. */
  predicate CierreAutomatico(v: Votacion, now: Instant)
  {
    v.fechaFin < now && v.estado != Finalizada
  }

  /**
   * `ids` lists the ballots of session `votacionId`, each once, in the order the query
   * returns them, and `ps` is what the tally reads of each.
   */
  ghost predicate Leidas(votos: map<Id, VotoEmitido>, viviendas: map<Id, ModeloVivienda.Vivienda>, votacionId: Id,
    ids: seq<Id>, ps: seq<Papeleta>)
  {
    && (forall k :: k in ids <==> k in VotosDe(votos, votacionId))
    && (forall i, j :: 0 <= i < j < |ids| ==> ids[i] != ids[j])
    && |ps| == |ids|
    && forall i :: 0 <= i < |ids| ==> ids[i] in votos && ps[i] == PapeletaDe(votos, viviendas, ids[i])
  }

  /**
   * `res` is the results response for session `v` over ballots `ps`: its counting system,
   * the valid-ballot count, one row per option stably sorted by the key, the community's
   * eligible and total dwellings, and participation over every ballot read.
   */
  ghost predicate Recuenta(res: Resultados, v: Votacion, viviendas: map<Id, ModeloVivienda.Vivienda>, ps: seq<Papeleta>)
  {
    && res.sistemaRecuento == v.sistemaRecuento
    && res.totalVotos == Validos(ps, Claves(v.opciones), v.sistemaRecuento)
    && Ordenadas(res.resultados, Filas(v.opciones, ps, v.sistemaRecuento), v.sistemaRecuento)
    && res.viviendasConDerechoVoto == |ConDerechoVoto(viviendas, v.comunidad)|
    && res.totalViviendas == |ViviendasDe(viviendas, v.comunidad)|
    && res.participacion == Participacion(|ps|, res.viviendasConDerechoVoto)
  }

  /**
   * The tally of session `votacionId` over its ballots in the order the query returns them
   * (`ids`), with the eligible-dwelling and dwelling counts of its community.
   */
  method Calcular(db: Db, votacionId: Id) returns (res: Resultados, ids: seq<Id>, ps: seq<Papeleta>)
    requires votacionId in db.votaciones
    ensures Leidas(db.votos, db.viviendas, votacionId, ids, ps)
    ensures Recuenta(res, db.votaciones[votacionId], db.viviendas, ps)
    ensures |ids| == |VotosDe(db.votos, votacionId)| && res.totalVotos <= |ids|
  {
    var v := db.votaciones[votacionId];
    var votos, viviendas := db.votos, db.viviendas;
    ids := Enumerar(VotosDe(votos, votacionId));
    assert forall i :: 0 <= i < |ids| ==> ids[i] in VotosDe(votos, votacionId);
    ps := seq(|ids|, i requires 0 <= i < |ids| && ids[i] in votos => PapeletaDe(votos, viviendas, ids[i]));
    var filas, validos := Tally(v.opciones, ps, v.sistemaRecuento);
    ValidosAcotados(ps, Claves(v.opciones), v.sistemaRecuento);
    var elegibles := |ConDerechoVoto(viviendas, v.comunidad)|;
    res := Resultados(v.sistemaRecuento, validos, Participacion(|ids|, elegibles), elegibles,
      |ViviendasDe(viviendas, v.comunidad)|, filas);
  }

  /**
   * `getResultadosVotacion`: closes the session if its end has passed, then returns the
   * tally whatever the session's state. `totalVotos` is the valid-ballot count, while
   * participation divides all the session's ballots.
   */
  method GetResultadosVotacion(db: Db, votacionId: Id, now: Instant) returns (r: Result<Resultados>)
    requires db.Valid()
    modifies db
    ensures db.Valid()
    ensures votacionId !in old(db.votaciones) ==> r == Fail(404, SessionNotFound) && db.votaciones == old(db.votaciones)
    ensures votacionId in old(db.votaciones) ==> r.Ok?
    ensures votacionId in old(db.votaciones) ==>
      var v := old(db.votaciones)[votacionId];
      && (CierreAutomatico(v, now) ==> db.votaciones == old(db.votaciones)[votacionId := v.(estado := Finalizada)])
      && (!CierreAutomatico(v, now) ==> db.votaciones == old(db.votaciones))
    ensures r.Ok? ==> r.value.participacion == Participacion(|VotosDe(db.votos, votacionId)|, r.value.viviendasConDerechoVoto)
    ensures r.Ok? ==> r.value.totalVotos <= |VotosDe(db.votos, votacionId)|
    ensures r.Ok? ==> exists ids, ps ::
      Leidas(db.votos, db.viviendas, votacionId, ids, ps)
      && Recuenta(r.value, db.votaciones[votacionId], db.viviendas, ps)
    ensures db.votos == old(db.votos) && db.viviendas == old(db.viviendas)
    ensures db.usuarios == old(db.usuarios) && db.comunidades == old(db.comunidades)
  {
    if votacionId !in db.votaciones {
      return Fail(404, SessionNotFound);
    }
    CerrarVencida(db, votacionId, now);
    var res, ids, ps := Calcular(db, votacionId);
    r := Ok(res);
    assert Leidas(db.votos, db.viviendas, votacionId, ids, ps) && Recuenta(res, db.votaciones[votacionId], db.viviendas, ps);
  }

  /** The close on read: a session past its end that is not finished is saved as `finalizada`. */
  method CerrarVencida(db: Db, votacionId: Id, now: Instant)
    requires db.Valid() && votacionId in db.votaciones
    modifies db
    ensures db.Valid()
    ensures var v := old(db.votaciones)[votacionId];
      && (CierreAutomatico(v, now) ==> db.votaciones == old(db.votaciones)[votacionId := v.(estado := Finalizada)])
      && (!CierreAutomatico(v, now) ==> db.votaciones == old(db.votaciones))
    ensures db.votos == old(db.votos) && db.viviendas == old(db.viviendas)
    ensures db.usuarios == old(db.usuarios) && db.comunidades == old(db.comunidades)
  {
    var v := db.votaciones[votacionId];
    if CierreAutomatico(v, now) {
      GuardarValida(v.(estado := Finalizada));
      db.votaciones := db.votaciones[votacionId := v.(estado := Finalizada)];
    }
  }

  /** No more ballots are valid than were cast. */
  lemma {:induction false} ValidosAcotados(ps: seq<Papeleta>, ks: seq<Id>, s: SistemaRecuento)
    ensures Validos(ps, ks, s) <= |ps|
  {
    if ps != [] {
      ValidosAcotados(ps[..|ps| - 1], ks, s);
    }
  }

  // ---------------------------------------------------------------------------------------
  // Checking for a ballot, deleting

  /**
   * `verificarVoto`: for a superadmin, whether the session has any ballot; for a user
   * without a dwelling, false; otherwise whether their dwelling voted in the session.
   */
  function VerificarVoto(usuarios: map<Id, Usuario>, votos: map<Id, VotoEmitido>, usuarioId: Id, votacionId: Id)
    : (r: Result<bool>)
    ensures usuarioId !in usuarios <==> r == Fail(404, UserNotFound)
    ensures usuarioId in usuarios && usuarios[usuarioId].rol == Superadmin ==> r == Ok(VotosDe(votos, votacionId) != {})
    ensures usuarioId in usuarios && usuarios[usuarioId].rol != Superadmin ==>
      r == Ok(usuarios[usuarioId].vivienda.Some? && Existe(votos, (usuarios[usuarioId].vivienda.value, votacionId)))
  {
    if usuarioId !in usuarios then Fail(404, UserNotFound)
    else
      var u := usuarios[usuarioId];
      if u.rol == Superadmin then
        Ok(if VotosDe(votos, votacionId) != {} then true else false)
      else if u.vivienda.None? then Ok(false)
      else Ok(Existe(votos, (u.vivienda.value, votacionId)))
  }

  /**
   * After a cast goes through, every non-superadmin resident of that dwelling is told the
   * dwelling has voted, and a superadmin that the session has ballots.
   */
  lemma VotoVerificado(votaciones: map<Id, Votacion>, viviendas: map<Id, ModeloVivienda.Vivienda>,
    votos: map<Id, VotoEmitido>, usuarios: map<Id, Usuario>, actor: Actor, votacionId: Id, opcionId: Id,
    now: Instant, id: Id, u: Id)
    requires u in usuarios
    requires usuarios[u].rol == Superadmin || usuarios[u].vivienda == actor.vivienda
    requires PlanVoto(votaciones, viviendas, votos, actor, votacionId, opcionId, now).Ok?
    ensures VerificarVoto(usuarios, votos[id := PlanVoto(votaciones, viviendas, votos, actor, votacionId, opcionId, now).value],
      u, votacionId) == Ok(true)
  {
    var v := PlanVoto(votaciones, viviendas, votos, actor, votacionId, opcionId, now).value;
    var m := votos[id := v];
    assert id in VotosDe(m, votacionId);
    assert ModeloVoto.Clave(m[id]) == (actor.vivienda.value, votacionId);
  }

  /** The ballots that remain once those of session `votacion` are deleted. */
  function SinVotosDe(m: map<Id, VotoEmitido>, votacion: Id): (r: map<Id, VotoEmitido>)
    ensures forall k :: k in r <==> k in m && m[k].votacion != votacion
    ensures forall k :: k in r ==> r[k] == m[k]
    ensures VotosDe(r, votacion) == {}
  {
    map k | k in m && m[k].votacion != votacion :: m[k]
  }

  /** `eliminarVotacion`: the session's ballots go first, then the session. */
  method EliminarVotacion(db: Db, id: Id) returns (r: Result<Id>)
    requires db.Valid()
    modifies db
    ensures db.Valid()
    ensures id !in old(db.votaciones) ==>
      (r == Fail(404, SessionNotFound) && db.votaciones == old(db.votaciones) && db.votos == old(db.votos))
    ensures id in old(db.votaciones) ==>
      (r == Ok(id) && db.votaciones == old(db.votaciones) - {id} && db.votos == SinVotosDe(old(db.votos), id))
    ensures db.viviendas == old(db.viviendas)
    ensures db.usuarios == old(db.usuarios) && db.comunidades == old(db.comunidades)
  {
    if id !in db.votaciones {
      return Fail(404, SessionNotFound);
    }
    db.votos := SinVotosDe(db.votos, id);
    db.votaciones := db.votaciones - {id};
    r := Ok(id);
  }

  // ---------------------------------------------------------------------------------------
  // Participation report

  /** `opcionesMap[...] || 'Opción desconocida'`. */
  function TextoOpcion(os: seq<Opcion>, k: Id): string
  {
    if k in Claves(os) && TextoDe(os, k) != [] then TextoDe(os, k) else "Opción desconocida"
  }

  datatype Estadisticas = Estadisticas(totalViviendas: nat, viviendasConDerechoVoto: nat, totalVotos: nat,
    participacion: real)

  datatype InformeParticipacion = InformeParticipacion(viviendas: seq<Informe.ViviendaInforme>,
    estadisticas: Estadisticas)

  /**
   * The owner an entry shows: the first resident the populate finds (a deleted user drops
   * out of the populated list), or none ('No asignado').
   */
  function Propietario(hs: seq<Id>, usuarios: map<Id, Usuario>): (p: Option<Id>)
    ensures p.None? <==> forall i :: 0 <= i < |hs| ==> hs[i] !in usuarios
    ensures p.Some? ==> p.value in usuarios
    ensures p.Some? ==> exists i :: 0 <= i < |hs| && hs[i] == p.value && forall j :: 0 <= j < i ==> hs[j] !in usuarios
  {
    if hs == [] then None
    else if hs[0] in usuarios then Some(hs[0])
    else
      var p := Propietario(hs[1..], usuarios);
      assert forall i :: 1 <= i < |hs| ==> hs[i] == hs[1..][i - 1];
      p
  }

  /** The report's view of stored ballot `k` of a session with options `os`. */
  function VotoDeInforme(votos: map<Id, VotoEmitido>, usuarios: map<Id, Usuario>, os: seq<Opcion>, k: Id)
    : Informe.VotoInforme
    requires k in votos
  {
    var b := votos[k];
    Informe.VotoInforme(k, b.opcionElegida, TextoOpcion(os, b.opcionElegida), b.fechaEmision,
      if b.usuario in usuarios then Some(b.usuario) else None)
  }

  /** Whether the session holds a ballot for dwelling `d`. */
  predicate HaVotado(votos: map<Id, VotoEmitido>, votacionId: Id, d: Id)
  {
    Existe(votos, (d, votacionId))
  }

  /**
   * Entry `e` of the report on session `votacionId` describes its dwelling as stored: door,
   * coefficient, owner and right to vote, and the dwelling's ballot in that session if it
   * cast one.
   */
  ghost predicate EntradaFiel(db: Db, votacionId: Id, e: Informe.ViviendaInforme)
    reads db
    requires votacionId in db.votaciones
  {
    && e.vivienda in ViviendasDe(db.viviendas, db.votaciones[votacionId].comunidad)
    && e.vivienda in db.viviendas
    && var w := db.viviendas[e.vivienda];
    && e.numeroPuerta == w.numeroPuerta && e.coeficiente == w.coeficiente
    && e.propietario == Propietario(w.habitantes, db.usuarios)
    && e.derechoVoto == w.derechoVoto
    && (e.voto.Some? <==> HaVotado(db.votos, votacionId, e.vivienda))
    && (e.voto.Some? ==>
      && e.voto.value.id in db.votos
      && ModeloVoto.Clave(db.votos[e.voto.value.id]) == (e.vivienda, votacionId)
      && e.voto.value == VotoDeInforme(db.votos, db.usuarios, db.votaciones[votacionId].opciones, e.voto.value.id))
  }

  /**
   * `getInformeParticipacion`: administrators only; one entry per dwelling of the session's
   * community, carrying that dwelling's ballot if it cast one; and the statistics, which
   * count the entries with the right to vote as the client summary does.
   */
  method GetInformeParticipacion(db: Db, actor: Actor, votacionId: Id) returns (r: Result<InformeParticipacion>)
    requires db.Valid()
    ensures actor.rol == Vecino ==> r == Fail(403, Forbidden)
    ensures actor.rol != Vecino && votacionId !in db.votaciones ==> r == Fail(404, SessionNotFound)
    ensures actor.rol != Vecino && votacionId in db.votaciones ==> r.Ok?
    ensures r.Ok? ==>
      (votacionId in db.votaciones && |r.value.viviendas| == |ViviendasDe(db.viviendas, db.votaciones[votacionId].comunidad)|)
    ensures r.Ok? ==> forall e :: e in r.value.viviendas ==> EntradaFiel(db, votacionId, e)
    ensures r.Ok? ==> forall d :: d in ViviendasDe(db.viviendas, db.votaciones[votacionId].comunidad) ==>
      exists e :: e in r.value.viviendas && e.vivienda == d
    ensures r.Ok? ==> var s := r.value.estadisticas;
      && s.totalViviendas == |r.value.viviendas|
      && s.viviendasConDerechoVoto == Informe.ResumenDe(r.value.viviendas).conDerechoVoto
      && s.totalVotos == |VotosDe(db.votos, votacionId)|
      && s.participacion == Participacion(s.totalVotos, s.viviendasConDerechoVoto)
  {
    if actor.rol != Admin && actor.rol != Superadmin {
      return Fail(403, Forbidden);
    }
    if votacionId !in db.votaciones {
      return Fail(404, SessionNotFound);
    }
    var v := db.votaciones[votacionId];
    var viviendas, votos := db.viviendas, db.votos;
    var ds := Enumerar(ViviendasDe(viviendas, v.comunidad));
    var entradas: seq<Informe.ViviendaInforme> := [];
    for i := 0 to |ds|
      invariant |entradas| == i
      invariant forall n :: 0 <= n < i ==> entradas[n].vivienda == ds[n]
      invariant forall e :: e in entradas ==> EntradaFiel(db, votacionId, e)
    {
      var d := ds[i];
      assert d in ds;
      var voto: Option<Informe.VotoInforme> := None;
      if HaVotado(votos, votacionId, d) {
        var k :| k in votos && ModeloVoto.Clave(votos[k]) == (d, votacionId);
        voto := Some(VotoDeInforme(votos, db.usuarios, v.opciones, k));
      }
      var w := viviendas[d];
      var e := Informe.ViviendaInforme(d, w.numeroPuerta, w.coeficiente, Propietario(w.habitantes, db.usuarios),
        w.derechoVoto, voto);
      assert EntradaFiel(db, votacionId, e);
      entradas := entradas + [e];
    }
    forall d | d in ViviendasDe(viviendas, v.comunidad) ensures exists e :: e in entradas && e.vivienda == d {
      var n :| 0 <= n < |ds| && ds[n] == d;
      assert entradas[n] in entradas;
    }
    var resumen := Informe.ResumenDe(entradas);
    var total := |VotosDe(votos, votacionId)|;
    var estadisticas := Estadisticas(|entradas|, resumen.conDerechoVoto, total,
      Participacion(total, resumen.conDerechoVoto));
    r := Ok(InformeParticipacion(entradas, estadisticas));
  }
}
