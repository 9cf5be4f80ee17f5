/** The cast-ballot schema and its unique (vivienda, votacion) index. */
module ModeloVoto {
  import opened Common

  /** One ballot: the session, the dwelling that voted, the user who cast it and the option. */
  datatype VotoEmitido = VotoEmitido(
    votacion: Id,
    vivienda: Id,
    usuario: Id,
    opcionElegida: Id,
    comunidad: Id,
    fechaEmision: Instant)

  /** The key of the unique index: the user is not part of it. */
  function Clave(v: VotoEmitido): (Id, Id)
  {
    (v.vivienda, v.votacion)
  }

  /** The index holds: no two stored ballots share a (vivienda, votacion) pair. */
  predicate UnVotoPorVivienda(m: map<Id, VotoEmitido>)
  {
    forall a, b :: a in m && b in m && Clave(m[a]) == Clave(m[b]) ==> a == b
  }

  /** Whether a ballot with key `k` is stored. */
  predicate Existe(m: map<Id, VotoEmitido>, k: (Id, Id))
  {
    exists a :: a in m && Clave(m[a]) == k
  }

  /** The ids of the stored ballots with key `k`. */
  function ConClave(m: map<Id, VotoEmitido>, k: (Id, Id)): set<Id>
  {
    set a | a in m && Clave(m[a]) == k
  }

  /**
   * `VotoEmitido.create` under the index: a ballot whose key is already stored is refused
   * with a duplicate-key error (400); otherwise it is stored under the fresh id.
   */
  function Insertar(m: map<Id, VotoEmitido>, id: Id, v: VotoEmitido): (r: Result<map<Id, VotoEmitido>>)
    requires id !in m
    ensures r.Ok? <==> !Existe(m, Clave(v))
    ensures r.Ok? ==> r.value == m[id := v]
    ensures r.Err? ==> r.failure == Failure(400, DuplicateKey)
  {
    if Existe(m, Clave(v)) then Fail(400, DuplicateKey) else Ok(m[id := v])
  }

  /** The index survives every insertion it accepts. */
  lemma InsertarConservaIndice(m: map<Id, VotoEmitido>, id: Id, v: VotoEmitido)
    requires id !in m && UnVotoPorVivienda(m)
    ensures Insertar(m, id, v).Ok? ==> UnVotoPorVivienda(Insertar(m, id, v).value)
  {
  }

  /** Under the index at most one ballot carries any given key. */
  lemma {:induction false} ComoMucho(m: map<Id, VotoEmitido>, k: (Id, Id))
    requires UnVotoPorVivienda(m)
    ensures |ConClave(m, k)| <= 1
  {
    var s := ConClave(m, k);
    if s != {} {
      var a :| a in s;
      assert s == {a};
    }
  }

  /** Two users of one dwelling cannot both vote in a session: the second ballot is refused. */
  lemma MismaViviendaOtroUsuario(m: map<Id, VotoEmitido>, id: Id, v: VotoEmitido, u: Id)
    requires id !in m
    requires Insertar(m, id, v).Ok?
    requires id + 1 !in m
    ensures Insertar(m[id := v], id + 1, v.(usuario := u)).Err?
  {
    assert Clave(m[id := v][id]) == Clave(v.(usuario := u));
  }

  /** The same dwelling may hold ballots in different sessions. */
  lemma MismaViviendaOtraVotacion(m: map<Id, VotoEmitido>, id: Id, v: VotoEmitido, s: Id)
    requires id !in m && id + 1 !in m
    requires UnVotoPorVivienda(m)
    requires s != v.votacion && !Existe(m, Clave(v)) && !Existe(m, Clave(v.(votacion := s)))
    ensures Insertar(m, id, v).Ok?
    ensures Insertar(m[id := v], id + 1, v.(votacion := s)).Ok?
  {
    assert !Existe(m[id := v], Clave(v.(votacion := s)));
  }
}
