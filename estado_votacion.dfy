/**
 * The client state of one session: the status predicates on dates, the effective status,
 * whether the user may vote, the countdown decomposition, and the hook's own state
 * (`yaVoto`, the countdown interval, the once-per-activation refetch).
 */
module EstadoVotacion {
  import opened Common
  import opened ModeloVotacion
  import opened ModeloUsuario
  import ListaVotaciones

  /** `isVotacionActiva`: inside the window, both ends included; false with no session. */
  predicate EsActiva(v: Option<Votacion>, now: Instant)
  {
    v.Some? && v.value.fechaInicio <= now <= v.value.fechaFin
  }

  /** `isVotacionFinalizada`: strictly past the end. */
  predicate EsFinalizada(v: Option<Votacion>, now: Instant)
  {
    v.Some? && v.value.fechaFin < now
  }

  /** `isVotacionPendiente`: strictly before the start. */
  predicate EsPendiente(v: Option<Votacion>, now: Instant)
  {
    v.Some? && now < v.value.fechaInicio
  }

  /**
   * `estadoReal`: a stored `finalizada` wins, then the dates decide; a stored `activa` or
   * `pendiente` is ignored. `None` stands for the empty string returned without a session.
   */
  function EstadoReal(v: Option<Votacion>, now: Instant): (e: Option<Estado>)
    ensures e.None? <==> v.None?
    ensures e == Some(Finalizada) <==> v.Some? && (v.value.estado == Finalizada || EsFinalizada(v, now))
    ensures e == Some(Activa) <==> v.Some? && v.value.estado != Finalizada && !EsFinalizada(v, now) && EsActiva(v, now)
    ensures e == Some(Pendiente) <==>
      v.Some? && v.value.estado != Finalizada && !EsFinalizada(v, now) && !EsActiva(v, now)
  {
    if v.None? then None
    else if v.value.estado == Finalizada then Some(Finalizada)
    else if EsFinalizada(v, now) then Some(Finalizada)
    else if EsActiva(v, now) then Some(Activa)
    else Some(Pendiente)
  }

  /** On a session that ends after it starts, the three date predicates partition time. */
  lemma FechasParticion(v: Votacion, now: Instant)
    requires v.fechaInicio < v.fechaFin
    ensures EsActiva(Some(v), now) || EsFinalizada(Some(v), now) || EsPendiente(Some(v), now)
    ensures !(EsActiva(Some(v), now) && EsFinalizada(Some(v), now))
    ensures !(EsActiva(Some(v), now) && EsPendiente(Some(v), now))
    ensures !(EsFinalizada(Some(v), now) && EsPendiente(Some(v), now))
  {
  }

  /**
   * On a valid session not stored as finished, the effective status is the status the session
   * list shows; with the end before the start the list says pending where this says finished.
   */
  lemma EstadoRealComoLista(v: Votacion, now: Instant)
    requires v.estado != Finalizada
    ensures v.fechaInicio < v.fechaFin ==>
      EstadoReal(Some(v), now) == Some(ListaVotaciones.EstadoPorFechas(v.fechaInicio, v.fechaFin, now))
    ensures v.fechaFin < now < v.fechaInicio ==>
      EstadoReal(Some(v), now) == Some(Finalizada)
      && ListaVotaciones.EstadoPorFechas(v.fechaInicio, v.fechaFin, now) == Pendiente
  {
  }

  /**
   * `puedeVotar`: false without a user, a session or a dwelling; otherwise exactly when the
   * effective status is `activa` and the user has not voted.
   */
  predicate PuedeVotar(usuario: Option<Actor>, v: Option<Votacion>, yaVoto: bool, now: Instant)
  {
    if usuario.None? || v.None? then false
    else if usuario.value.vivienda.None? then false
    else EstadoReal(v, now) == Some(Activa) && !yaVoto
  }

  /** Whoever may vote faces a session that has started, has not ended and is not stored closed. */
  lemma PuedeVotarEnVentana(usuario: Option<Actor>, v: Option<Votacion>, yaVoto: bool, now: Instant)
    ensures PuedeVotar(usuario, v, yaVoto, now) <==>
      && usuario.Some? && usuario.value.vivienda.Some? && v.Some? && !yaVoto
      && v.value.estado != Finalizada && v.value.fechaInicio <= now <= v.value.fechaFin
  {
  }

  // ---------------------------------------------------------------------------------------
  // Countdown

  const MsDia: int := 1000 * 60 * 60 * 24
  const MsHora: int := 1000 * 60 * 60
  const MsMinuto: int := 1000 * 60
  const MsSegundo: int := 1000

  datatype Tiempo = Tiempo(dias: nat, horas: nat, minutos: nat, segundos: nat, total: int)

  function Milisegundos(t: Tiempo): int
  {
    t.dias * MsDia + t.horas * MsHora + t.minutos * MsMinuto + t.segundos * MsSegundo
  }

  /**
   * `calcularTiempoRestante` on `diferencia = fechaFin - ahora`: nothing once it is not
   * positive, otherwise whole days, then the hours, minutes and seconds left over.
   */
  function TiempoRestante(diferencia: int): (t: Option<Tiempo>)
    ensures diferencia <= 0 <==> t.None?
    ensures t.Some? ==> t.value.total == diferencia
    ensures t.Some? ==> t.value.horas < 24 && t.value.minutos < 60 && t.value.segundos < 60
    ensures t.Some? ==> Milisegundos(t.value) <= diferencia < Milisegundos(t.value) + 1000
  {
    if diferencia <= 0 then None
    else
      var t := Tiempo(diferencia / MsDia, (diferencia % MsDia) / MsHora,
        (diferencia % MsHora) / MsMinuto, (diferencia % MsMinuto) / MsSegundo, diferencia);
      Descomposicion(diferencia);
      Some(t)
  }

  /** The floor/mod parts add back up to the difference, less its leftover milliseconds. */
  lemma Descomposicion(d: int)
    requires d > 0
    ensures (d % MsDia) / MsHora < 24 && (d % MsHora) / MsMinuto < 60 && (d % MsMinuto) / MsSegundo < 60
    ensures var ms := (d / MsDia) * MsDia + ((d % MsDia) / MsHora) * MsHora
        + ((d % MsHora) / MsMinuto) * MsMinuto + ((d % MsMinuto) / MsSegundo) * MsSegundo;
      ms <= d < ms + 1000
  {
    var dd, rd := d / MsDia, d % MsDia;
    assert d == dd * MsDia + rd;
    var h, rh := rd / MsHora, rd % MsHora;
    assert rd == h * MsHora + rh;
    ModAnidado(d, dd, rd, h, rh);
    var m, rm := rh / MsMinuto, rh % MsMinuto;
    assert rh == m * MsMinuto + rm;
    ModMinuto(d, rh, m, rm);
    var s := rm / MsSegundo;
    assert rm == s * MsSegundo + rm % MsSegundo;
  }

  /** Days are whole hours, so the remainder by the hour is the remainder of the day's remainder. */
  lemma ModAnidado(d: int, dd: int, rd: int, h: int, rh: int)
    requires d == dd * MsDia + rd && 0 <= rd < MsDia
    requires rd == h * MsHora + rh && 0 <= rh < MsHora
    ensures d % MsHora == rh && h < 24
  {
    assert MsDia == 86400000 && MsHora == 3600000;
    assert d == (dd * 24 + h) * 3600000 + rh;
  }

  /** Hours are whole minutes, so the remainder by the minute is that of the hour's remainder. */
  lemma ModMinuto(d: int, rh: int, m: int, rm: int)
    requires d % MsHora == rh
    requires rh == m * MsMinuto + rm && 0 <= rm < MsMinuto
    ensures d % MsMinuto == rm && m < 60
  {
    assert MsHora == 3600000 && MsMinuto == 60000;
    assert rh == m * 60000 + rm && 0 <= rh < 3600000;
    var q := d / 3600000;
    assert d == q * 3600000 + rh;
    assert d == (q * 60 + m) * 60000 + rm;
  }

  // ---------------------------------------------------------------------------------------
  // The hook's state

  /** The state the hook keeps for one session and the calls to the server it issues. */
  class Hook {
    var votacion: Option<Votacion>
    var yaVoto: bool
    var votoEmitido: bool
    var tiempoRestante: Option<Tiempo>
    /** Whether the countdown interval is running (`timerRef.current` is set). */
    var intervalo: bool
    /** `didFinishRef.current`. */
    var terminado: bool
    /** How many times the countdown asked for the session again (`fetchVotacion`). */
    var recargas: nat

    constructor (v: Option<Votacion>)
      ensures votacion == v && !yaVoto && !votoEmitido && tiempoRestante.None?
      ensures !intervalo && !terminado && recargas == 0
    {
      votacion := v;
      yaVoto := false;
      votoEmitido := false;
      tiempoRestante := None;
      intervalo := false;
      terminado := false;
      recargas := 0;
    }

    /** The countdown runs while the session is stored `activa` or is inside its window. */
    predicate CuentaAtras(now: Instant)
      reads this
    {
      votacion.Some? && (votacion.value.estado == Activa || EsActiva(votacion, now))
    }

    /** `puedeVotar` over the hook's state. */
    predicate PuedeVotarAhora(usuario: Option<Actor>, now: Instant)
      reads this
    {
      PuedeVotar(usuario, votacion, yaVoto, now)
    }

    /** The interval callback: a new countdown, or, once the end is reached, one refetch. */
    method Tick(now: Instant)
      requires votacion.Some?
      modifies this
      ensures votacion == old(votacion) && yaVoto == old(yaVoto) && votoEmitido == old(votoEmitido)
      ensures tiempoRestante == TiempoRestante(votacion.value.fechaFin - now)
      ensures tiempoRestante.Some? ==>
        (intervalo == old(intervalo) && terminado == old(terminado) && recargas == old(recargas))
      ensures tiempoRestante.None? ==>
        (!intervalo && terminado && recargas == old(recargas) + (if old(terminado) then 0 else 1))
    {
      var diferencia := votacion.value.fechaFin - now;
      if diferencia <= 0 {
        intervalo := false;
        tiempoRestante := None;
        if !terminado {
          terminado := true;
          recargas := recargas + 1;
        }
        return;
      }
      tiempoRestante := TiempoRestante(diferencia);
    }

    /**
     * The countdown effect: the refetch flag is reset, the callback runs at once, the
     * interval is started whatever that first run found, and the callback then runs at
     * each instant of `ticks`, the instants at which the interval would fire, until a run
     * finds the end reached and clears the interval. Whatever the instants are, the session
     * is asked for again at most once; the countdown shown is the one computed at the last
     * run, and it is gone once the end was reached, provided no firing is timed before the
     * activation.
     */
    method Activar(now: Instant, ticks: seq<Instant>)
      requires CuentaAtras(now)
      modifies this
      ensures votacion == old(votacion) && yaVoto == old(yaVoto) && votoEmitido == old(votoEmitido)
      ensures recargas <= old(recargas) + 1
      ensures recargas == old(recargas) + 1 <==> terminado
      ensures terminado <==> votacion.value.fechaFin <= now || exists k :: 0 <= k < |ticks| && votacion.value.fechaFin <= ticks[k]
      ensures intervalo <==> forall k :: 0 <= k < |ticks| ==> ticks[k] < votacion.value.fechaFin
      ensures intervalo ==> tiempoRestante == TiempoRestante(votacion.value.fechaFin - (if |ticks| == 0 then now else ticks[|ticks| - 1]))
      ensures !terminado ==> tiempoRestante == TiempoRestante(votacion.value.fechaFin - (if |ticks| == 0 then now else ticks[|ticks| - 1]))
      ensures !intervalo ==> tiempoRestante.None?
      ensures terminado && (forall k :: 0 <= k < |ticks| ==> now <= ticks[k]) ==> tiempoRestante.None?
    {
      terminado := false;
      Tick(now);
      intervalo := true;
      var base := old(recargas);
      for i := 0 to |ticks|
        invariant votacion == old(votacion) && yaVoto == old(yaVoto) && votoEmitido == old(votoEmitido)
        invariant recargas == base + (if terminado then 1 else 0)
        invariant terminado <==> votacion.value.fechaFin <= now || exists k :: 0 <= k < i && votacion.value.fechaFin <= ticks[k]
        invariant intervalo <==> forall k :: 0 <= k < i ==> ticks[k] < votacion.value.fechaFin
        invariant intervalo ==> tiempoRestante == TiempoRestante(votacion.value.fechaFin - (if i == 0 then now else ticks[i - 1]))
        invariant !intervalo ==> tiempoRestante.None?
        invariant terminado && (forall k :: 0 <= k < i ==> now <= ticks[k]) ==> tiempoRestante.None?
      {
        if intervalo {
          Tick(ticks[i]);
        }
      }
    }

    /**
     * `handleVotoEmitido`: the user has voted, whether or not the updated session came
     * back; a returned session replaces the stored one.
     */
    method VotoEmitido(actualizada: Option<Votacion>)
      modifies this
      ensures yaVoto && votoEmitido
      ensures actualizada.Some? ==> votacion == actualizada
      ensures actualizada.None? ==> votacion == old(votacion)
      ensures tiempoRestante == old(tiempoRestante) && intervalo == old(intervalo)
      ensures terminado == old(terminado) && recargas == old(recargas)
    {
      if actualizada.Some? {
        votacion := actualizada;
      }
      yaVoto := true;
      votoEmitido := true;
    }
  }

  /** After a reported cast nobody may vote again from this screen. */
  lemma TrasVotarNoPuede(usuario: Option<Actor>, v: Option<Votacion>, now: Instant)
    ensures !PuedeVotar(usuario, v, true, now)
  {
  }
}
