/**
 * The session list: the status by dates, the counting-system label and the simplified
 * result badge, which applies its own decision chain and ignores the majority rule.
 */
module ListaVotaciones {
  import opened Common
  import opened ModeloVotacion
  import opened Recuento
  import opened Resultados

  /** `getStatusClass`: the status by dates alone; the stored `estado` is not read. */
  function ClaseEstado(fechaInicio: Instant, fechaFin: Instant, now: Instant): (c: string)
    ensures c == "status-pendiente" <==> fechaInicio > now
    ensures c == "status-finalizada" <==> fechaInicio <= now && fechaFin < now
    ensures c == "status-activa" <==> fechaInicio <= now <= fechaFin
  {
    if fechaInicio > now then "status-pendiente"
    else if fechaFin < now then "status-finalizada"
    else "status-activa"
  }

  /** `getStatusText`: the same tests with the display texts. */
  function TextoEstado(fechaInicio: Instant, fechaFin: Instant, now: Instant): (t: string)
    ensures t == "Pendiente" <==> fechaInicio > now
    ensures t == "Finalizada" <==> fechaInicio <= now && fechaFin < now
    ensures t == "Activa" <==> fechaInicio <= now <= fechaFin
  {
    if fechaInicio > now then "Pendiente"
    else if fechaFin < now then "Finalizada"
    else "Activa"
  }

  /** The status as a lifecycle state. */
  function EstadoPorFechas(fechaInicio: Instant, fechaFin: Instant, now: Instant): Estado
  {
    if fechaInicio > now then Pendiente
    else if fechaFin < now then Finalizada
    else Activa
  }

  /** The class and the text always name the same status, which is the one by dates. */
  lemma ClaseYTextoConcuerdan(fechaInicio: Instant, fechaFin: Instant, now: Instant)
    ensures var e := EstadoPorFechas(fechaInicio, fechaFin, now);
      && (e == Pendiente <==> ClaseEstado(fechaInicio, fechaFin, now) == "status-pendiente")
      && (e == Finalizada <==> ClaseEstado(fechaInicio, fechaFin, now) == "status-finalizada")
      && (e == Activa <==> ClaseEstado(fechaInicio, fechaFin, now) == "status-activa")
      && (e == Pendiente <==> TextoEstado(fechaInicio, fechaFin, now) == "Pendiente")
      && (e == Finalizada <==> TextoEstado(fechaInicio, fechaFin, now) == "Finalizada")
      && (e == Activa <==> TextoEstado(fechaInicio, fechaFin, now) == "Activa")
  {
  }

  /**
   * `getSistemaText`: fixed labels for `vivienda`, `coeficiente` and `simple`; any other
   * value is shown as it is, and a missing or empty one as "No especificado".
   */
  function TextoSistema(sistemaRecuento: Option<string>): (t: string)
    ensures sistemaRecuento == Some("vivienda") ==> t == "Por vivienda"
    ensures sistemaRecuento == Some("coeficiente") ==> t == "Por coeficiente"
    ensures sistemaRecuento == Some("simple") ==> t == "Simple"
    ensures sistemaRecuento.None? || sistemaRecuento == Some("") ==> t == "No especificado"
    ensures sistemaRecuento.Some? && sistemaRecuento.value !in {"vivienda", "coeficiente", "simple", ""} ==>
      t == sistemaRecuento.value
  {
    if sistemaRecuento == Some("vivienda") then "Por vivienda"
    else if sistemaRecuento == Some("coeficiente") then "Por coeficiente"
    else if sistemaRecuento == Some("simple") then "Simple"
    else if sistemaRecuento.None? || sistemaRecuento.value == "" then "No especificado"
    else sistemaRecuento.value
  }

  /** Every value the schema admits is shown with one of its two labels; "Simple" never appears. */
  lemma TextoSistemaAlmacenado(s: string)
    requires ParseSistemaRecuento(s).Some?
    ensures TextoSistema(Some(s)) == "Por vivienda" || TextoSistema(Some(s)) == "Por coeficiente"
    ensures TextoSistema(Some(s)) != "Simple"
  {
  }

  /**
   * The results attached to a listed session: `totalVotos` and the `resultados` rows, `None`
   * when that field is not an array.
   */
  datatype Adjuntos = Adjuntos(totalVotos: nat, filas: Option<seq<Fila>>)

  /** `!r.votos && !r.coeficiente`: both figures are zero. */
  predicate Vacia(f: Fila)
  {
    f.votos == 0 && f.coeficiente == 0.0
  }

  /** The postponed test: no valid ballot, or every row is empty (an empty array included). */
  predicate SinVotos(a: Adjuntos)
  {
    a.totalVotos == 0 || (a.filas.Some? && forall i :: 0 <= i < |a.filas.value| ==> Vacia(a.filas.value[i]))
  }

  /**
   * The badge's decision once it is not postponed: only an abstention row gives no agreement,
   * equal favor and against give a tie, a favor row is approved exactly when it beats the
   * against figure (0 when absent), an against row alone is a rejection, and anything else
   * shows "Pendiente", here `NoDeterminado`. The majority rule is never consulted.
   */
  function Veredicto(r: Roles, s: SistemaRecuento): (v: Resultado)
    ensures v != Postergada
    ensures v == SinAcuerdo <==> r.abstencion.Some? && r.favor.None? && r.contra.None?
    ensures r.favor.Some? ==>
      var c := if r.contra.Some? then Valor(r.contra.value, s) else 0.0;
      if r.contra.Some? && Valor(r.favor.value, s) == c then v == Empate
      else (v == Aprobada <==> Valor(r.favor.value, s) > c) && (v == Rechazada <==> Valor(r.favor.value, s) <= c)
    ensures r.favor.None? && r.contra.Some? ==> v == Rechazada
    ensures v == NoDeterminado <==> r.favor.None? && r.contra.None? && r.abstencion.None?
  {
    if r.abstencion.Some? && r.favor.None? && r.contra.None? then SinAcuerdo
    else if r.favor.Some? && r.contra.Some? && Valor(r.favor.value, s) == Valor(r.contra.value, s) then Empate
    else if r.favor.Some? then
      var c := if r.contra.Some? then Valor(r.contra.value, s) else 0.0;
      if Valor(r.favor.value, s) > c then Aprobada else Rechazada
    else if r.contra.Some? then Rechazada
    else NoDeterminado
  }

  /**
   * `getResultadoVotacion`: no badge unless the session is over by dates and has results;
   * then postponed, or the verdict on the roles the rows take in the order received.
   */
  function Insignia(fechaInicio: Instant, fechaFin: Instant, now: Instant, adjuntos: Option<Adjuntos>,
    s: SistemaRecuento): (b: Option<Resultado>)
    ensures b.None? <==> EstadoPorFechas(fechaInicio, fechaFin, now) != Finalizada || adjuntos.None?
    ensures b == Some(Postergada) <==> b.Some? && SinVotos(adjuntos.value)
    ensures b.Some? && !SinVotos(adjuntos.value) ==>
      b.value == Veredicto(RolesDe(if adjuntos.value.filas.Some? then adjuntos.value.filas.value else []), s)
  {
    if ClaseEstado(fechaInicio, fechaFin, now) != "status-finalizada" || adjuntos.None? then None
    else if SinVotos(adjuntos.value) then Some(Postergada)
    else
      var filas := if adjuntos.value.filas.Some? then adjuntos.value.filas.value else [];
      Some(Veredicto(RolesDe(filas), s))
  }

  /** The badge as the component computes it, with the `every` test and the classifying `forEach`. */
  method ResultadoVotacion(fechaInicio: Instant, fechaFin: Instant, now: Instant, adjuntos: Option<Adjuntos>,
    s: SistemaRecuento) returns (b: Option<Resultado>)
    ensures b == Insignia(fechaInicio, fechaFin, now, adjuntos, s)
  {
    if ClaseEstado(fechaInicio, fechaFin, now) != "status-finalizada" || adjuntos.None? {
      return None;
    }
    var a := adjuntos.value;
    var todasVacias := a.filas.Some?;
    if a.filas.Some? {
      var i := 0;
      while i < |a.filas.value| && todasVacias
        invariant 0 <= i <= |a.filas.value|
        invariant todasVacias <==> forall j :: 0 <= j < i ==> Vacia(a.filas.value[j])
      {
        todasVacias := Vacia(a.filas.value[i]);
        i := i + 1;
      }
    }
    if a.totalVotos == 0 || todasVacias {
      return Some(Postergada);
    }
    var filas := if a.filas.Some? then a.filas.value else [];
    var favor, contra, abstencion := Clasificar(filas);
    var r := Roles(favor, contra, abstencion);
    if abstencion.Some? && favor.None? && contra.None? {
      b := Some(SinAcuerdo);
    } else if favor.Some? && contra.Some? && Valor(favor.value, s) == Valor(contra.value, s) {
      b := Some(Empate);
    } else if favor.Some? {
      var votosEnContra := if contra.Some? then Valor(contra.value, s) else 0.0;
      b := if Valor(favor.value, s) > votosEnContra then Some(Aprobada) else Some(Rechazada);
    } else if contra.Some? {
      b := Some(Rechazada);
    } else {
      b := Some(NoDeterminado);
    }
  }

  // ---------------------------------------------------------------------------------------
  // The badge against the resolver of the results view

  /**
   * Under simple majority, with non-negative figures, the badge and the resolver differ in
   * exactly one case: a favor row with nothing in it and no against row, which the resolver
   * calls no agreement and the badge a rejection.
   */
  lemma VeredictoFrenteASimple(r: Roles, total: real, s: SistemaRecuento)
    requires total != 0.0
    requires r.favor.Some? ==> Valor(r.favor.value, s) >= 0.0
    requires r.contra.Some? ==> Valor(r.contra.value, s) >= 0.0
    ensures Veredicto(r, s) != Regla(r, total, Simple, s) <==>
      r.favor.Some? && r.contra.None? && Valor(r.favor.value, s) == 0.0
    ensures r.favor.Some? && r.contra.None? && Valor(r.favor.value, s) == 0.0 ==>
      Veredicto(r, s) == Rechazada && Regla(r, total, Simple, s) == SinAcuerdo
  {
    if r.favor.Some? {
      ReglaSimple(r, total, s);
    }
  }

  /**
   * Three for, two against and one abstention under three fifths: the resolver rejects
   * (3 of 6 is not above 60%) while the badge shows the session approved.
   */
  lemma TresQuintosDiscrepa(fs: seq<Fila>)
    requires |fs| == 3 && fs[0].opcion == "A favor" && fs[0].votos == 3
    requires fs[1].opcion == "En contra" && fs[1].votos == 2
    requires fs[2].opcion == "Abstención" && fs[2].votos == 1
    ensures Decidir(fs, TresQuintos, PorVivienda) == Rechazada
    ensures Veredicto(RolesDe(fs), PorVivienda) == Aprobada
  {
    TresContraDosConAbstencion(fs);
    EtiquetaAFavor(fs[0].opcion);
    EtiquetaEnContra(fs[1].opcion);
    EtiquetaAbstencion(fs[2].opcion);
    RolesTres(fs, RolDe);
  }

  /**
   * Three for and one against under unanimity: the resolver rejects because someone voted
   * against, while the badge shows the session approved.
   */
  lemma UnanimidadDiscrepa(fs: seq<Fila>)
    requires |fs| == 2 && fs[0].opcion == "A favor" && fs[0].votos == 3
    requires fs[1].opcion == "En contra" && fs[1].votos == 1
    ensures Decidir(fs, Unanimidad, PorVivienda) == Rechazada
    ensures Veredicto(RolesDe(fs), PorVivienda) == Aprobada
  {
    EtiquetaAFavor(fs[0].opcion);
    EtiquetaEnContra(fs[1].opcion);
    RolesDos(fs, RolDe);
    SumaDos(fs, PorVivienda);
  }
}
