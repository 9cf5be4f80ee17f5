/**
 * The periodic sweep that closes every active session whose end has been reached. A save
 * that fails is logged and skipped; which saves fail is a parameter, since it depends on
 * the database and not on the sweep.
 */
module Cron {
  import opened Common
  import opened ModeloVotacion
  import opened Almacen
  import EstadoVotacion
  import ControladorVotacion

  /** The sweep's query: stored `activa` and `fechaFin <= ahora`, the end instant included. */
  predicate Vencida(v: Votacion, now: Instant)
  {
    v.estado == Activa && v.fechaFin <= now
  }

  /** The ids the query returns. */
  function Seleccion(m: map<Id, Votacion>, now: Instant): (s: set<Id>)
    ensures forall k :: k in s <==> k in m && Vencida(m[k], now)
  {
    set k | k in m && Vencida(m[k], now)
  }

  /**
   * The sessions after one sweep in which the saves of `fallos` failed: every selected
   * session outside `fallos` is finished, everything else is as it was.
   */
  function Barrido(m: map<Id, Votacion>, now: Instant, fallos: set<Id>): map<Id, Votacion>
  {
    map k | k in m :: if Vencida(m[k], now) && k !in fallos then m[k].(estado := Finalizada) else m[k]
  }

  /**
   * `finalizarVotacionesVencidas`: one pass over the selected sessions in the order the query
   * returns them; each successful save finishes its session and is counted.
   */
  method FinalizarVencidas(db: Db, now: Instant, fallos: set<Id>) returns (actualizadas: nat)
    requires db.Valid()
    modifies db
    ensures db.Valid()
    ensures db.votaciones == Barrido(old(db.votaciones), now, fallos)
    ensures actualizadas == |Seleccion(old(db.votaciones), now) - fallos|
    ensures actualizadas <= |Seleccion(old(db.votaciones), now)|
    ensures db.votos == old(db.votos) && db.viviendas == old(db.viviendas)
    ensures db.usuarios == old(db.usuarios) && db.comunidades == old(db.comunidades)
  {
    var inicial := db.votaciones;
    var ids := Enumerar(Seleccion(inicial, now));
    var r;
    r, actualizadas := Recorrer(inicial, ids, fallos);
    Recorrido(inicial, now, fallos, ids);
    ParcialValida(inicial, r, Hechas(ids, |ids|, fallos));
    BarridoEs(inicial, r, now, fallos, Hechas(ids, |ids|, fallos));
    db.votaciones := r;
  }

  /** The loop of the sweep on the stored sessions alone. */
  method Recorrer(inicial: map<Id, Votacion>, ids: seq<Id>, fallos: set<Id>) returns (r: map<Id, Votacion>, actualizadas: nat)
    requires forall k :: k in ids ==> k in inicial
    requires forall a, b :: 0 <= a < b < |ids| ==> ids[a] != ids[b]
    ensures actualizadas == |Hechas(ids, |ids|, fallos)|
    ensures Parcial(inicial, r, Hechas(ids, |ids|, fallos))
  {
    r := inicial;
    actualizadas := 0;
    for i := 0 to |ids|
      invariant actualizadas == |Hechas(ids, i, fallos)|
      invariant Parcial(inicial, r, Hechas(ids, i, fallos))
    {
      var k := ids[i];
      HechasPaso(ids, i, fallos);
      if k !in fallos {
        ParcialPaso(inicial, r, Hechas(ids, i, fallos), k);
        r := r[k := r[k].(estado := Finalizada)];
        actualizadas := actualizadas + 1;
      }
    }
  }

  /** The ids among the first `i` that are not in `fallos`: the sessions saved so far. */
  function Hechas(ids: seq<Id>, i: nat, fallos: set<Id>): set<Id>
    requires i <= |ids|
  {
    set n | 0 <= n < i && ids[n] !in fallos :: ids[n]
  }

  /** One more visited id adds itself, once, unless its save failed. */
  lemma HechasPaso(ids: seq<Id>, i: nat, fallos: set<Id>)
    requires i < |ids|
    requires forall a, b :: 0 <= a < b < |ids| ==> ids[a] != ids[b]
    ensures ids[i] !in Hechas(ids, i, fallos)
    ensures Hechas(ids, i + 1, fallos) == Hechas(ids, i, fallos) + (if ids[i] in fallos then {} else {ids[i]})
  {
    var h, h2 := Hechas(ids, i, fallos), Hechas(ids, i + 1, fallos);
    forall x | x in h2 ensures x in h + (if ids[i] in fallos then {} else {ids[i]}) {
      var n :| 0 <= n < i + 1 && ids[n] !in fallos && ids[n] == x;
      if n < i {
        assert x in h;
      }
    }
  }

  /** The selected ids visited without a failure are exactly the selection less the failures. */
  lemma Recorrido(m: map<Id, Votacion>, now: Instant, fallos: set<Id>, ids: seq<Id>)
    requires forall k :: k in ids <==> k in Seleccion(m, now)
    ensures Hechas(ids, |ids|, fallos) == Seleccion(m, now) - fallos
  {
    forall k | k in Seleccion(m, now) - fallos ensures k in Hechas(ids, |ids|, fallos) {
      var n :| 0 <= n < |ids| && ids[n] == k;
    }
  }

  /** `r` is `m` with exactly the sessions of `hechas` finished. */
  predicate Parcial(m: map<Id, Votacion>, r: map<Id, Votacion>, hechas: set<Id>)
  {
    && r.Keys == m.Keys
    && forall k :: k in m ==> r[k] == if k in hechas then m[k].(estado := Finalizada) else m[k]
  }

  lemma ParcialPaso(m: map<Id, Votacion>, r: map<Id, Votacion>, hechas: set<Id>, k: Id)
    requires Parcial(m, r, hechas) && k in m && k !in hechas
    ensures k in r && Parcial(m, r[k := r[k].(estado := Finalizada)], hechas + {k})
  {
  }

  /** Finishing a stored session keeps it valid: the validator does not read `estado`. */
  lemma ParcialValida(m: map<Id, Votacion>, r: map<Id, Votacion>, hechas: set<Id>)
    requires Parcial(m, r, hechas)
    requires forall k :: k in m ==> ModeloVotacion.EsValida(m[k])
    ensures forall k :: k in r ==> ModeloVotacion.EsValida(r[k])
  {
  }

  /** A map that finished exactly the sessions of `hechas` is the sweep's result. */
  lemma BarridoEs(m: map<Id, Votacion>, r: map<Id, Votacion>, now: Instant, fallos: set<Id>, hechas: set<Id>)
    requires Parcial(m, r, hechas) && hechas == Seleccion(m, now) - fallos
    ensures r == Barrido(m, now, fallos)
  {
  }

  /** Only `estado` of selected sessions changes, and only to `finalizada`; pending and finished ones are untouched. */
  lemma BarridoSoloCierra(m: map<Id, Votacion>, now: Instant, fallos: set<Id>, k: Id)
    requires k in m
    ensures k in Barrido(m, now, fallos)
    ensures m[k].estado != Activa ==> Barrido(m, now, fallos)[k] == m[k]
    ensures Barrido(m, now, fallos)[k] == m[k] || Barrido(m, now, fallos)[k] == m[k].(estado := Finalizada)
    ensures Barrido(m, now, fallos)[k].estado == Finalizada <==>
      m[k].estado == Finalizada || (Vencida(m[k], now) && k !in fallos)
  {
  }

  /** After a sweep with no failed save nothing is selected any more, so running it again changes nothing. */
  lemma BarridoIdempotente(m: map<Id, Votacion>, now: Instant, fallos: set<Id>)
    ensures Seleccion(Barrido(m, now, {}), now) == {}
    ensures Barrido(Barrido(m, now, {}), now, fallos) == Barrido(m, now, {})
  {
    var b := Barrido(m, now, {});
    forall k | k in b ensures !Vencida(b[k], now) {
    }
    assert Seleccion(b, now) == {};
    var c := Barrido(b, now, fallos);
    assert c.Keys == b.Keys;
    forall k | k in c ensures c[k] == b[k] {
    }
  }

  /** With failures, a second sweep closes exactly the sessions whose save failed the first time. */
  lemma SegundoBarrido(m: map<Id, Votacion>, now: Instant, fallos: set<Id>)
    ensures Seleccion(Barrido(m, now, fallos), now) == Seleccion(m, now) * fallos
  {
    var b := Barrido(m, now, fallos);
    forall k ensures k in Seleccion(b, now) <==> k in Seleccion(m, now) * fallos {
      if k in m {
        BarridoSoloCierra(m, now, fallos, k);
      }
    }
  }

  /**
   * At the end instant itself the sweep and the other readers disagree: the sweep closes the
   * session, the results read does not close it, and the client still shows it active
   * until the sweep has run.
   */
  lemma FronteraFechaFin(v: Votacion, now: Instant)
    requires ModeloVotacion.EsValida(v) && v.estado == Activa && v.fechaFin == now
    ensures Vencida(v, now)
    ensures !ControladorVotacion.CierreAutomatico(v, now)
    ensures EstadoVotacion.EsActiva(Some(v), now) && !EstadoVotacion.EsFinalizada(Some(v), now)
    ensures EstadoVotacion.EstadoReal(Some(v), now) == Some(Activa)
    ensures EstadoVotacion.EstadoReal(Some(v.(estado := Finalizada)), now) == Some(Finalizada)
  {
  }
}
