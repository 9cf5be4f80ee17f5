/**
 * The outcome resolver of the results view: option roles inferred from the labels, the bar
 * colours, and the ordered decision postponed, no agreement, tie, majority rule, rejected,
 * undetermined.
 */
module Resultados {
  import opened Common
  import Texto
  import opened ModeloVotacion
  import opened Recuento

  /** The part a label plays in the decision. */
  datatype Rol = Favor | Contra | Abstencion | Otro

  /** The label tests on the lower-cased text, in the order they are applied. */
  function RolDeTexto(texto: string): Rol
  {
    var t := Texto.Lower(texto);
    if Texto.Contains(t, "favor") || t == "sí" || t == "si" then Favor
    else if Texto.Contains(t, "contra") || t == "no" then Contra
    else if Texto.Contains(t, "abstención") || Texto.Contains(t, "abstencion") then Abstencion
    else Otro
  }

  function RolDe(f: Fila): Rol
  {
    RolDeTexto(f.opcion)
  }

  datatype Color = Success | Error | Warning | Primary

  /**
   * `getBarColor`: its own copy of the three label tests. Each colour corresponds to
   * exactly one role, so the bar colours always agree with the roles the resolver uses.
   */
  function ColorBarra(opcionTexto: string): (c: Color)
    ensures c == Success <==> RolDeTexto(opcionTexto) == Favor
    ensures c == Error <==> RolDeTexto(opcionTexto) == Contra
    ensures c == Warning <==> RolDeTexto(opcionTexto) == Abstencion
    ensures c == Primary <==> RolDeTexto(opcionTexto) == Otro
  {
    var texto := Texto.Lower(opcionTexto);
    if Texto.Contains(texto, "favor") || texto == "sí" || texto == "si" then Success
    else if Texto.Contains(texto, "contra") || texto == "no" then Error
    else if Texto.Contains(texto, "abstención") || Texto.Contains(texto, "abstencion") then Warning
    else Primary
  }

  /** The labels of the usual preset and of a yes/no session fall in the expected roles. */
  lemma RolesDeEtiquetas()
    ensures RolDeTexto("A favor") == Favor
    ensures RolDeTexto("En contra") == Contra
    ensures RolDeTexto("Abstención") == Abstencion
    ensures RolDeTexto("Sí") == Favor
    ensures RolDeTexto("No") == Contra
  {
    EtiquetaAFavor("A favor");
    EtiquetaEnContra("En contra");
    EtiquetaAbstencion("Abstención");
    EtiquetaSiNo("Sí", "No");
  }

  lemma EsFavor(texto: string)
    requires Texto.Contains(Texto.Lower(texto), "favor")
    ensures RolDeTexto(texto) == Favor
  {
  }

  lemma EsContra(texto: string)
    requires !Texto.Contains(Texto.Lower(texto), "favor")
    requires Texto.Lower(texto) != "sí" && Texto.Lower(texto) != "si"
    requires Texto.Contains(Texto.Lower(texto), "contra")
    ensures RolDeTexto(texto) == Contra
  {
  }

  lemma EsAbstencion(texto: string)
    requires !Texto.Contains(Texto.Lower(texto), "favor") && !Texto.Contains(Texto.Lower(texto), "contra")
    requires Texto.Lower(texto) != "sí" && Texto.Lower(texto) != "si" && Texto.Lower(texto) != "no"
    requires Texto.Contains(Texto.Lower(texto), "abstención")
    ensures RolDeTexto(texto) == Abstencion
  {
  }

  /** Lower-casing a label whose first letter is the only capital. */
  lemma Minusculas(c: char, resto: string, t: string)
    requires forall i :: 0 <= i < |resto| ==> Texto.SinMayuscula(resto[i])
    requires t == [Texto.LowerChar(c)] + resto
    ensures Texto.Lower([c] + resto) == t
  {
    Texto.LowerSinMayusculas(resto);
    Texto.LowerCons(c, resto);
  }

  lemma MinusculasAFavor(texto: string)
    requires texto == "A favor"
    ensures Texto.Lower(texto) == "a favor"
  {
    assert texto == ['A'] + " favor";
    Minusculas('A', " favor", "a favor");
  }

  lemma EtiquetaAFavor(texto: string)
    requires texto == "A favor"
    ensures RolDeTexto(texto) == Favor
  {
    MinusculasAFavor(texto);
    ContieneFavor(Texto.Lower(texto));
    EsFavor(texto);
  }

  lemma ContieneFavor(t: string)
    requires t == "a favor"
    ensures Texto.Contains(t, "favor")
  {
    Texto.ContainsInfix("a ", "favor", "");
    assert "a " + "favor" + "" == t;
  }

  lemma MinusculasEnContra(texto: string)
    requires texto == "En contra"
    ensures Texto.Lower(texto) == "en contra"
  {
    assert texto == ['E'] + "n contra";
    Minusculas('E', "n contra", "en contra");
  }

  lemma ContieneContra(t: string)
    requires t == "en contra"
    ensures !Texto.Contains(t, "favor") && Texto.Contains(t, "contra")
  {
    Texto.SinCaracter(t, "favor", 'f');
    Texto.ContainsInfix("en ", "contra", "");
    assert "en " + "contra" + "" == t;
  }

  lemma EtiquetaEnContra(texto: string)
    requires texto == "En contra"
    ensures RolDeTexto(texto) == Contra
  {
    MinusculasEnContra(texto);
    ContieneContra(Texto.Lower(texto));
    EsContra(texto);
  }

  lemma MinusculasAbstencion(texto: string)
    requires texto == "Abstención"
    ensures Texto.Lower(texto) == "abstención"
  {
    assert texto == ['A'] + "bstención";
    Minusculas('A', "bstención", "abstención");
  }

  lemma ContieneAbstencion(t: string)
    requires t == "abstención"
    ensures !Texto.Contains(t, "favor") && !Texto.Contains(t, "contra") && Texto.Contains(t, "abstención")
  {
    SinFavorNiContra(t);
    Texto.ContainsInfix("", "abstención", "");
    assert "" + "abstención" + "" == t;
  }

  lemma SinFavorNiContra(t: string)
    requires t == "abstención"
    ensures !Texto.Contains(t, "favor") && !Texto.Contains(t, "contra")
  {
    assert 'f' !in t && 'r' !in t;
    Texto.SinCaracter(t, "favor", 'f');
    Texto.SinCaracter(t, "contra", 'r');
  }

  lemma EtiquetaAbstencion(texto: string)
    requires texto == "Abstención"
    ensures RolDeTexto(texto) == Abstencion
  {
    MinusculasAbstencion(texto);
    ContieneAbstencion(Texto.Lower(texto));
    EsAbstencion(texto);
  }

  lemma EtiquetaSiNo(si: string, no: string)
    requires si == "Sí" && no == "No"
    ensures RolDeTexto(si) == Favor
    ensures RolDeTexto(no) == Contra
  {
    assert si == ['S'] + "í";
    Minusculas('S', "í", "sí");
    assert no == ['N'] + "o";
    Minusculas('N', "o", "no");
  }

  // ---------------------------------------------------------------------------------------
  // Classification

  /** The three role variables of the classifying loop; `None` is `null`. */
  datatype Roles = Roles(favor: Option<Fila>, contra: Option<Fila>, abstencion: Option<Fila>)

  /** One step of the loop: the row overwrites the variable of its role. */
  function Asignar(r: Roles, f: Fila, rol: Rol): Roles
  {
    match rol
    case Favor => r.(favor := Some(f))
    case Contra => r.(contra := Some(f))
    case Abstencion => r.(abstencion := Some(f))
    case Otro => r
  }

  /**
   * The role variables after the loop has visited `fs` in order, for any classification
   * `rolDe` of the rows; the resolver uses `RolDe`.
   */
  function RolesCon(fs: seq<Fila>, rolDe: Fila -> Rol): Roles
  {
    if fs == [] then Roles(None, None, None)
    else Asignar(RolesCon(fs[..|fs| - 1], rolDe), fs[|fs| - 1], rolDe(fs[|fs| - 1]))
  }

  function RolesDe(fs: seq<Fila>): Roles
  {
    RolesCon(fs, RolDe)
  }

  /** The variable holding role `rol`; `Otro` rows are not kept. */
  function Elegida(r: Roles, rol: Rol): Option<Fila>
  {
    match rol
    case Favor => r.favor
    case Contra => r.contra
    case Abstencion => r.abstencion
    case Otro => None
  }

  /** Row `i` has role `rol` and no later row does. */
  predicate UltimaCon(fs: seq<Fila>, rolDe: Fila -> Rol, rol: Rol, i: int)
  {
    0 <= i < |fs| && rolDe(fs[i]) == rol && forall j :: i < j < |fs| ==> rolDe(fs[j]) != rol
  }

  /**
   * Each role variable ends up `null` exactly when no row has that role, and otherwise
   * holds the last row with that role: a later option overwrites an earlier one.
   */
  lemma {:induction false} UltimaDeSuRol(fs: seq<Fila>, rolDe: Fila -> Rol, rol: Rol)
    requires rol != Otro
    ensures Elegida(RolesCon(fs, rolDe), rol).None? <==> forall i :: 0 <= i < |fs| ==> rolDe(fs[i]) != rol
    ensures forall i :: UltimaCon(fs, rolDe, rol, i) ==> Elegida(RolesCon(fs, rolDe), rol) == Some(fs[i])
  {
    if fs != [] {
      var ini := fs[..|fs| - 1];
      var x := fs[|fs| - 1];
      UltimaDeSuRol(ini, rolDe, rol);
      forall i | UltimaCon(fs, rolDe, rol, i) ensures Elegida(RolesCon(fs, rolDe), rol) == Some(fs[i]) {
        if i < |ini| {
          assert UltimaCon(ini, rolDe, rol, i);
        }
      }
      if forall i :: 0 <= i < |fs| ==> rolDe(fs[i]) != rol {
        assert forall i :: 0 <= i < |ini| ==> rolDe(ini[i]) != rol;
      }
      if Elegida(RolesCon(fs, rolDe), rol).None? {
        forall i | 0 <= i < |fs| ensures rolDe(fs[i]) != rol {
          if i < |ini| {
            assert fs[i] == ini[i];
          }
        }
      }
    }
  }

  /** A row that is the only one of its role is what the loop picks for that role. */
  lemma {:induction false} UnicaDeSuRol(fs: seq<Fila>, rolDe: Fila -> Rol, x: Fila)
    requires x in fs && rolDe(x) != Otro
    requires forall y :: y in fs && rolDe(y) == rolDe(x) ==> y == x
    ensures Elegida(RolesCon(fs, rolDe), rolDe(x)) == Some(x)
  {
    var ini := fs[..|fs| - 1];
    var u := fs[|fs| - 1];
    assert fs == ini + [u];
    if rolDe(u) != rolDe(x) {
      assert x in ini;
      UnicaDeSuRol(ini, rolDe, x);
    }
  }

  /** The classifying `forEach`, assigning the three local variables. */
  method Clasificar(fs: seq<Fila>) returns (favor: Option<Fila>, contra: Option<Fila>, abstencion: Option<Fila>)
    ensures Roles(favor, contra, abstencion) == RolesDe(fs)
  {
    favor, contra, abstencion := None, None, None;
    for i := 0 to |fs|
      invariant Roles(favor, contra, abstencion) == RolesDe(fs[..i])
    {
      assert fs[..i + 1][..i] == fs[..i];
      var opcion := fs[i];
      var texto := Texto.Lower(opcion.opcion);
      if Texto.Contains(texto, "favor") || texto == "sí" || texto == "si" {
        favor := Some(opcion);
      } else if Texto.Contains(texto, "contra") || texto == "no" {
        contra := Some(opcion);
      } else if Texto.Contains(texto, "abstención") || Texto.Contains(texto, "abstencion") {
        abstencion := Some(opcion);
      }
    }
    assert fs[..|fs|] == fs;
  }

  // ---------------------------------------------------------------------------------------
  // The decision

  datatype Resultado = NoDeterminado | Postergada | SinAcuerdo | Empate | Aprobada | Rechazada

  /** The figure a row contributes: its coefficient sum in coefficient mode, else its count. */
  function Valor(f: Fila, s: SistemaRecuento): real
  {
    if s == PorCoeficiente then f.coeficiente else f.votos as real
  }

  /** `totalVotosOCoeficientes`: the figures of all rows added from the left. */
  function SumaValores(fs: seq<Fila>, s: SistemaRecuento): real
  {
    if fs == [] then 0.0 else SumaValores(fs[..|fs| - 1], s) + Valor(fs[|fs| - 1], s)
  }

  predicate NoNegativos(fs: seq<Fila>, s: SistemaRecuento)
  {
    forall i :: 0 <= i < |fs| ==> Valor(fs[i], s) >= 0.0
  }

  /**
   * The decision once some figure is non-zero: no agreement, tie, the majority rule, then
   * rejection. The rule branches all return, so the final comparison of `votos` the source
   * makes when a favor row exists is never reached; only the against-without-favor case is.
   */
  function Regla(r: Roles, total: real, tipo: TipoMayoria, s: SistemaRecuento): Resultado
    requires total != 0.0
  {
    if r.abstencion.Some? && r.favor.None? && r.contra.None? then SinAcuerdo
    else if r.favor.Some? && r.contra.Some? && Valor(r.favor.value, s) == Valor(r.contra.value, s) then Empate
    else if r.favor.Some? then
      var f := Valor(r.favor.value, s);
      match tipo
      case Unanimidad =>
        if r.contra.Some? && Valor(r.contra.value, s) > 0.0 then Rechazada
        else if r.abstencion.Some? && Valor(r.abstencion.value, s) > 0.0 then Rechazada
        else Aprobada
      case Simple =>
        var c := if r.contra.Some? then Valor(r.contra.value, s) else 0.0;
        if c == 0.0 && f > 0.0 then Aprobada
        else if f + c == 0.0 then SinAcuerdo
        else if f / (f + c) * 100.0 > 50.0 then Aprobada
        else Rechazada
      case TresQuintos =>
        if f / total * 100.0 > 60.0 then Aprobada else Rechazada
    else if r.contra.Some? then Rechazada
    else NoDeterminado
  }

  /** `determinarResultadoVotacion` on the rows in the order received. */
  function Decidir(fs: seq<Fila>, tipo: TipoMayoria, s: SistemaRecuento): (r: Resultado)
    ensures fs == [] ==> r == NoDeterminado
    ensures fs != [] ==> (r == Postergada <==> SumaValores(fs, s) == 0.0)
  {
    if fs == [] then NoDeterminado
    else if SumaValores(fs, s) == 0.0 then Postergada
    else Regla(RolesDe(fs), SumaValores(fs, s), tipo, s)
  }

  /** The resolver as written: the total by `reduce`, the classifying loop, the decision chain. */
  method DeterminarResultadoVotacion(opciones: seq<Fila>, tipoMayoria: TipoMayoria, sistemaRecuento: SistemaRecuento)
    returns (resultado: Resultado)
    ensures resultado == Decidir(opciones, tipoMayoria, sistemaRecuento)
  {
    if |opciones| == 0 {
      return NoDeterminado;
    }
    var total := 0.0;
    for i := 0 to |opciones|
      invariant total == SumaValores(opciones[..i], sistemaRecuento)
    {
      assert opciones[..i + 1][..i] == opciones[..i];
      total := total + Valor(opciones[i], sistemaRecuento);
    }
    assert opciones[..|opciones|] == opciones;
    if total == 0.0 {
      return Postergada;
    }
    var favor, contra, abstencion := Clasificar(opciones);
    resultado := Regla(Roles(favor, contra, abstencion), total, tipoMayoria, sistemaRecuento);
  }

  // ---------------------------------------------------------------------------------------
  // Properties of the decision

  /** With non-negative figures the total is zero exactly when every figure is zero. */
  lemma {:induction false} SumaCero(fs: seq<Fila>, s: SistemaRecuento)
    requires NoNegativos(fs, s)
    ensures SumaValores(fs, s) >= 0.0
    ensures SumaValores(fs, s) == 0.0 <==> forall i :: 0 <= i < |fs| ==> Valor(fs[i], s) == 0.0
  {
    if fs != [] {
      var ini := fs[..|fs| - 1];
      assert forall i :: 0 <= i < |ini| ==> ini[i] == fs[i];
      SumaCero(ini, s);
    }
  }

  /** A session is postponed exactly when no row carries any count (or coefficient). */
  lemma PostergadaSiNadieVota(fs: seq<Fila>, tipo: TipoMayoria, s: SistemaRecuento)
    requires fs != [] && NoNegativos(fs, s)
    ensures Decidir(fs, tipo, s) == Postergada <==> forall i :: 0 <= i < |fs| ==> Valor(fs[i], s) == 0.0
  {
    SumaCero(fs, s);
  }

  /**
   * An abstention row with no favor and no against row gives no agreement under every rule:
   * only the presence of the rows is checked, whatever the abstention row's own figure.
   */
  lemma SinAcuerdoPorPresencia(fs: seq<Fila>, tipo: TipoMayoria, s: SistemaRecuento, k: int)
    requires 0 <= k < |fs| && RolDe(fs[k]) == Abstencion
    requires forall i :: 0 <= i < |fs| ==> RolDe(fs[i]) != Favor && RolDe(fs[i]) != Contra
    requires SumaValores(fs, s) != 0.0
    ensures Decidir(fs, tipo, s) == SinAcuerdo
  {
    UltimaDeSuRol(fs, RolDe, Favor);
    UltimaDeSuRol(fs, RolDe, Contra);
    UltimaDeSuRol(fs, RolDe, Abstencion);
  }

  /** Equal favor and against figures give a tie before any majority rule is consulted. */
  lemma EmpateAntesDeLaRegla(r: Roles, total: real, s: SistemaRecuento)
    requires total != 0.0
    requires r.favor.Some? && r.contra.Some? && Valor(r.favor.value, s) == Valor(r.contra.value, s)
    ensures Regla(r, total, Simple, s) == Empate
    ensures Regla(r, total, TresQuintos, s) == Empate
    ensures Regla(r, total, Unanimidad, s) == Empate
  {
  }

  /** Unanimity: approved iff neither the against nor the abstention row carries anything. */
  lemma ReglaUnanimidad(r: Roles, total: real, s: SistemaRecuento)
    requires total != 0.0
    requires r.favor.Some?
    requires !(r.contra.Some? && Valor(r.favor.value, s) == Valor(r.contra.value, s))
    ensures Regla(r, total, Unanimidad, s) == Aprobada || Regla(r, total, Unanimidad, s) == Rechazada
    ensures Regla(r, total, Unanimidad, s) == Aprobada <==>
      (r.contra.None? || Valor(r.contra.value, s) <= 0.0) && (r.abstencion.None? || Valor(r.abstencion.value, s) <= 0.0)
  {
  }

  /** Comparing a quotient by a positive divisor is comparing the dividend. */
  lemma DivMayor(a: real, b: real, t: real)
    requires t > 0.0
    ensures a / t > b <==> a > b * t
  {
    var q := a / t;
    assert q * t == a;
    if q > b {
      assert q * t > b * t;
    }
    if a > b * t {
      assert q * t > b * t;
    }
  }

  lemma MitadEstricta(f: real, c: real)
    requires f >= 0.0 && c >= 0.0 && f + c > 0.0
    ensures f / (f + c) * 100.0 > 50.0 <==> f > c
  {
    DivMayor(f, 0.5, f + c);
  }

  /**
   * Simple majority over favor and against only (abstentions do not count): approved iff
   * favor exceeds against, a tie when both rows exist and are equal, no agreement when
   * both figures are zero without an against row, rejected otherwise.
   */
  lemma ReglaSimple(r: Roles, total: real, s: SistemaRecuento)
    requires total != 0.0
    requires r.favor.Some? && Valor(r.favor.value, s) >= 0.0
    requires r.contra.Some? ==> Valor(r.contra.value, s) >= 0.0
    ensures var f := Valor(r.favor.value, s);
      var c := if r.contra.Some? then Valor(r.contra.value, s) else 0.0;
      Regla(r, total, Simple, s) ==
        if f > c then Aprobada
        else if f == c then (if r.contra.Some? then Empate else SinAcuerdo)
        else Rechazada
  {
    var f := Valor(r.favor.value, s);
    var c := if r.contra.Some? then Valor(r.contra.value, s) else 0.0;
    if f + c > 0.0 {
      MitadEstricta(f, c);
    }
  }

  lemma TresQuintosDelTotal(f: real, t: real)
    requires t > 0.0
    ensures f / t * 100.0 > 60.0 <==> 5.0 * f > 3.0 * t
  {
    DivMayor(f, 0.6, t);
  }

  /**
   * Three fifths over the total of every row, abstentions and other options included:
   * approved iff five times favor exceeds three times that total, unless a tie came first.
   */
  lemma ReglaTresQuintos(r: Roles, total: real, s: SistemaRecuento)
    requires r.favor.Some? && total > 0.0
    requires !(r.contra.Some? && Valor(r.favor.value, s) == Valor(r.contra.value, s))
    ensures Regla(r, total, TresQuintos, s) ==
      if 5.0 * Valor(r.favor.value, s) > 3.0 * total then Aprobada else Rechazada
  {
    TresQuintosDelTotal(Valor(r.favor.value, s), total);
  }

  /** An against row without a favor row is a rejection under every rule. */
  lemma ContraSinFavor(r: Roles, total: real, tipo: TipoMayoria, s: SistemaRecuento)
    requires total != 0.0
    requires r.favor.None? && r.contra.Some?
    ensures Regla(r, total, tipo, s) == Rechazada
  {
  }

  /** Only no favor, no against and no abstention row leaves the outcome undetermined. */
  lemma NoDeterminadoSinRoles(fs: seq<Fila>, tipo: TipoMayoria, s: SistemaRecuento)
    requires fs != [] && SumaValores(fs, s) != 0.0
    ensures Decidir(fs, tipo, s) == NoDeterminado <==>
      forall i :: 0 <= i < |fs| ==> RolDe(fs[i]) == Otro
  {
    UltimaDeSuRol(fs, RolDe, Favor);
    UltimaDeSuRol(fs, RolDe, Contra);
    UltimaDeSuRol(fs, RolDe, Abstencion);
    forall i | 0 <= i < |fs| ensures RolDe(fs[i]) == Otro || RolDe(fs[i]) in {Favor, Contra, Abstencion} {
    }
  }

  // ---------------------------------------------------------------------------------------
  // Worked cases

  /** The loop over two rows: the second assignment comes after the first. */
  lemma RolesDos(fs: seq<Fila>, rolDe: Fila -> Rol)
    requires |fs| == 2
    ensures RolesCon(fs, rolDe) ==
      Asignar(Asignar(Roles(None, None, None), fs[0], rolDe(fs[0])), fs[1], rolDe(fs[1]))
  {
    var a := fs[..1];
    assert a[..0] == [] && a[0] == fs[0];
    assert RolesCon(a, rolDe) == Asignar(RolesCon([], rolDe), fs[0], rolDe(fs[0]));
  }

  lemma RolesTres(fs: seq<Fila>, rolDe: Fila -> Rol)
    requires |fs| == 3
    ensures RolesCon(fs, rolDe) ==
      Asignar(Asignar(Asignar(Roles(None, None, None), fs[0], rolDe(fs[0])), fs[1], rolDe(fs[1])), fs[2], rolDe(fs[2]))
  {
    var a := fs[..2];
    RolesDos(a, rolDe);
    assert a[0] == fs[0] && a[1] == fs[1];
  }

  lemma SumaDos(fs: seq<Fila>, s: SistemaRecuento)
    requires |fs| == 2
    ensures SumaValores(fs, s) == Valor(fs[0], s) + Valor(fs[1], s)
  {
    var a := fs[..1];
    assert a[..0] == [] && a[0] == fs[0];
    assert SumaValores(a, s) == SumaValores([], s) + Valor(fs[0], s);
  }

  lemma SumaTres(fs: seq<Fila>, s: SistemaRecuento)
    requires |fs| == 3
    ensures SumaValores(fs, s) == Valor(fs[0], s) + Valor(fs[1], s) + Valor(fs[2], s)
  {
    var a := fs[..2];
    SumaDos(a, s);
    assert a[0] == fs[0] && a[1] == fs[1];
  }

  /** Three ballots for and two against under simple majority: approved (60% > 50%). */
  lemma TresContraDosSimple(fs: seq<Fila>)
    requires |fs| == 2 && fs[0].opcion == "A favor" && fs[0].votos == 3
    requires fs[1].opcion == "En contra" && fs[1].votos == 2
    ensures Decidir(fs, Simple, PorVivienda) == Aprobada
  {
    EtiquetaAFavor(fs[0].opcion);
    EtiquetaEnContra(fs[1].opcion);
    RolesDos(fs, RolDe);
    SumaDos(fs, PorVivienda);
    MitadEstricta(3.0, 2.0);
  }

  /**
   * The same ballots plus one abstention under three fifths: 3 of 6 is 50%, not above 60%,
   * so rejected; under simple majority the abstention does not count and it is approved.
   */
  lemma TresContraDosConAbstencion(fs: seq<Fila>)
    requires |fs| == 3 && fs[0].opcion == "A favor" && fs[0].votos == 3
    requires fs[1].opcion == "En contra" && fs[1].votos == 2
    requires fs[2].opcion == "Abstención" && fs[2].votos == 1
    ensures Decidir(fs, TresQuintos, PorVivienda) == Rechazada
    ensures Decidir(fs, Simple, PorVivienda) == Aprobada
  {
    EtiquetaAFavor(fs[0].opcion);
    EtiquetaEnContra(fs[1].opcion);
    EtiquetaAbstencion(fs[2].opcion);
    RolesTres(fs, RolDe);
    SumaTres(fs, PorVivienda);
    TresQuintosDelTotal(3.0, 6.0);
    MitadEstricta(3.0, 2.0);
  }

  // ---------------------------------------------------------------------------------------
  // The tally feeding the resolver

  /** The "A favor / En contra / Abstención" preset as stored. */
  const Preset: seq<Opcion> := [Opcion(0, "A favor"), Opcion(1, "En contra"), Opcion(2, "Abstención")]

  lemma {:induction false} VotosTodosPara(ps: seq<Papeleta>, k: Id, j: Id)
    requires forall i :: 0 <= i < |ps| ==> ps[i].opcion == k
    ensures VotosPara(ps, k) == |ps|
    ensures j != k ==> VotosPara(ps, j) == 0
  {
    if ps != [] {
      VotosTodosPara(ps[..|ps| - 1], k, j);
    }
  }

  /** The tally of the preset: one row per option, in this order, with these labels and counts. */
  lemma FilasDelPreset(ps: seq<Papeleta>)
    ensures |Filas(Preset, ps, PorVivienda)| == 3
    ensures forall i :: 0 <= i < 3 ==> Filas(Preset, ps, PorVivienda)[i].opcion == Preset[i].texto
    ensures forall i :: 0 <= i < 3 ==> Filas(Preset, ps, PorVivienda)[i].votos == VotosPara(ps, i)
  {
    assert Preset[..1] == [Opcion(0, "A favor")];
    assert Preset[..2] == [Opcion(0, "A favor"), Opcion(1, "En contra")];
    assert Preset[..2][..1] == Preset[..1];
    assert Preset[..1][..0] == [];
    assert Claves(Preset[..1]) == [0];
    assert Claves(Preset[..2]) == [0, 1];
    assert Claves(Preset) == [0, 1, 2];
    assert TextoDe(Preset[..1], 0) == "A favor";
    assert TextoDe(Preset[..2], 0) == "A favor";
    assert TextoDe(Preset, 0) == "A favor";
    assert TextoDe(Preset[..2], 1) == "En contra";
    assert TextoDe(Preset, 1) == "En contra";
    assert TextoDe(Preset, 2) == "Abstención";
  }

  lemma {:induction false} SumaPositiva(fs: seq<Fila>, s: SistemaRecuento, k: int)
    requires NoNegativos(fs, s) && 0 <= k < |fs| && Valor(fs[k], s) > 0.0
    ensures SumaValores(fs, s) > 0.0
  {
    var ini := fs[..|fs| - 1];
    assert forall i :: 0 <= i < |ini| ==> ini[i] == fs[i];
    SumaCero(ini, s);
    if k < |fs| - 1 {
      SumaPositiva(ini, s, k);
    }
  }

  /** In any order of rows holding one favor and one against row, the loop keeps those two. */
  lemma {:induction false} FavorYContraUnicas(fs: seq<Fila>, t: seq<Fila>, rolDe: Fila -> Rol)
    requires |t| == 3 && multiset(fs) == multiset(t)
    requires rolDe(t[0]) == Favor && rolDe(t[1]) == Contra && rolDe(t[2]) == Abstencion
    ensures RolesCon(fs, rolDe).favor == Some(t[0]) && RolesCon(fs, rolDe).contra == Some(t[1])
  {
    assert forall y :: y in fs ==> y in multiset(t);
    assert forall y :: y in fs ==> y == t[0] || y == t[1] || y == t[2];
    assert t[0] in multiset(fs) && t[1] in multiset(fs);
    UnicaDeSuRol(fs, rolDe, t[0]);
    UnicaDeSuRol(fs, rolDe, t[1]);
  }

  /**
   * Any order of three rows with one row per role, where only the abstention row has
   * votes, is a tie of 0 for against 0.
   */
  lemma EmpateACero(fs: seq<Fila>, t: seq<Fila>, tipo: TipoMayoria)
    requires |t| == 3 && multiset(fs) == multiset(t)
    requires RolDe(t[0]) == Favor && RolDe(t[1]) == Contra && RolDe(t[2]) == Abstencion
    requires t[0].votos == 0 && t[1].votos == 0 && t[2].votos > 0
    ensures Decidir(fs, tipo, PorVivienda) == Empate
  {
    FavorYContraUnicas(fs, t, RolDe);
    assert t[2] in multiset(fs);
    var k :| 0 <= k < |fs| && fs[k] == t[2];
    SumaPositiva(fs, PorVivienda, k);
  }

  /**
   * Because the tally lists every option with a zero count, a session on the preset in
   * which every ballot is an abstention resolves to a tie (0 for against 0), not to no
   * agreement, under every rule and whatever order the rows arrive in.
   */
  lemma PresetSoloAbstenciones(ps: seq<Papeleta>, fs: seq<Fila>, tipo: TipoMayoria)
    requires |ps| > 0 && forall i :: 0 <= i < |ps| ==> ps[i].opcion == 2
    requires multiset(fs) == multiset(Filas(Preset, ps, PorVivienda))
    ensures Decidir(fs, tipo, PorVivienda) == Empate
  {
    var t := Filas(Preset, ps, PorVivienda);
    FilasDelPreset(ps);
    VotosTodosPara(ps, 2, 0);
    VotosTodosPara(ps, 2, 1);
    EtiquetaAFavor(t[0].opcion);
    EtiquetaEnContra(t[1].opcion);
    EtiquetaAbstencion(t[2].opcion);
    EmpateACero(fs, t, tipo);
  }
}
