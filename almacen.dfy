/**
 * The database: one map per collection, keyed by document id, and the constraints the
 * schemas and unique indexes keep on it.
 */
module Almacen {
  import opened Common
  import opened ModeloVotacion
  import opened ModeloVoto
  import opened ModeloVivienda
  import opened ModeloUsuario
  import opened ModeloComunidad
  import Texto
  import Arrays

  class Db {
    var votaciones: map<Id, Votacion>
    var votos: map<Id, VotoEmitido>
    var viviendas: map<Id, Vivienda>
    var usuarios: map<Id, Usuario>
    var comunidades: map<Id, Comunidad>

    /** Every stored session passed validation, and every unique index holds. */
    predicate Valid()
      reads this
    {
      && (forall k :: k in votaciones ==> ModeloVotacion.EsValida(votaciones[k]))
      && UnVotoPorVivienda(votos)
      && PuertasUnicas(viviendas)
      && EmailsUnicos(usuarios)
      && ClavesUnicas(comunidades)
    }

    constructor ()
      ensures Valid()
      ensures votaciones == map[] && votos == map[] && viviendas == map[]
      ensures usuarios == map[] && comunidades == map[]
    {
      votaciones, votos, viviendas, usuarios, comunidades := map[], map[], map[], map[], map[];
    }
  }

  /** The ids of the ballots of session `votacion`: `VotoEmitido.find({ votacion })`. */
  function VotosDe(m: map<Id, VotoEmitido>, votacion: Id): set<Id>
  {
    set k | k in m && m[k].votacion == votacion
  }

  /** The dwellings of community `c`, and those of them with the right to vote. */
  function ViviendasDe(m: map<Id, Vivienda>, c: Id): set<Id>
  {
    set k | k in m && m[k].comunidad == c
  }

  function ConDerechoVoto(m: map<Id, Vivienda>, c: Id): (r: set<Id>)
    ensures r <= ViviendasDe(m, c)
  {
    set k | k in m && m[k].comunidad == c && m[k].derechoVoto
  }

  /**
   * A query result in the order the database returns it, which the model leaves open: any
   * listing of the set, each element once.
   */
  method Enumerar(s: set<Id>) returns (r: seq<Id>)
    ensures |r| == |s|
    ensures forall x :: x in r <==> x in s
    ensures forall i, j :: 0 <= i < j < |r| ==> r[i] != r[j]
  {
    r := [];
    var resto := s;
    while resto != {}
      invariant resto <= s
      invariant forall x :: x in r <==> x in s && x !in resto
      invariant forall i, j :: 0 <= i < j < |r| ==> r[i] != r[j]
      invariant |r| + |resto| == |s|
      decreases |resto|
    {
      var x :| x in resto;
      r := r + [x];
      resto := resto - {x};
    }
  }

  /** A stored session saves again unchanged: its texts are already trimmed and it validates. */
  lemma GuardarValida(v: Votacion)
    requires ModeloVotacion.EsValida(v)
    ensures ModeloVotacion.Guardar(v) == Ok(v)
  {
    var n := Normalizar(v);
    Texto.RecortadoTrim(v.titulo);
    Texto.RecortadoTrim(v.descripcion);
    forall i | 0 <= i < |v.opciones| ensures n.opciones[i] == v.opciones[i] {
      Texto.RecortadoTrim(v.opciones[i].texto);
    }
    assert n.opciones == v.opciones;
  }

  // ---------------------------------------------------------------------------------------
  // Residents: `usuario.vivienda` and `vivienda.habitantes`

  /** `$pull: { habitantes: u }` on dwelling `vid`; an id that names no dwelling changes nothing. */
  function SacarHabitante(m: map<Id, Vivienda>, vid: Id, u: Id): (r: map<Id, Vivienda>)
    ensures r.Keys == m.Keys
    ensures vid in m ==> r[vid] == m[vid].(habitantes := Arrays.Pull(m[vid].habitantes, u))
    ensures forall k :: k in r && k != vid ==> r[k] == m[k]
  {
    if vid in m then m[vid := m[vid].(habitantes := Arrays.Pull(m[vid].habitantes, u))] else m
  }

  /** `$addToSet: { habitantes: u }` on dwelling `vid`. */
  function MeterHabitante(m: map<Id, Vivienda>, vid: Id, u: Id): (r: map<Id, Vivienda>)
    ensures r.Keys == m.Keys
    ensures vid in m ==> r[vid] == m[vid].(habitantes := Arrays.AddToSet(m[vid].habitantes, u))
    ensures forall k :: k in r && k != vid ==> r[k] == m[k]
  {
    if vid in m then m[vid := m[vid].(habitantes := Arrays.AddToSet(m[vid].habitantes, u))] else m
  }

  /**
   * The two sides of residence agree: a stored user names a stored dwelling exactly when the
   * dwelling lists them among its residents.
   */
  predicate Coherente(vs: map<Id, Vivienda>, us: map<Id, Usuario>)
  {
    forall u, v :: u in us && v in vs ==> (us[u].vivienda == Some(v) <==> u in vs[v].habitantes)
  }

  /** A new user `u` under an id no dwelling lists joins the resident list of the dwelling they name. */
  lemma AltaCoherente(vs: map<Id, Vivienda>, us: map<Id, Usuario>, id: Id, u: Usuario)
    requires Coherente(vs, us)
    requires id !in us && forall v :: v in vs ==> id !in vs[v].habitantes
    requires u.vivienda.Some? ==> u.vivienda.value in vs
    ensures Coherente(if u.vivienda.Some? then MeterHabitante(vs, u.vivienda.value, id) else vs, us[id := u])
  {
    var us' := us[id := u];
    var vs' := if u.vivienda.Some? then MeterHabitante(vs, u.vivienda.value, id) else vs;
    forall x, v | x in us' && v in vs' ensures us'[x].vivienda == Some(v) <==> x in vs'[v].habitantes {
      if u.vivienda == Some(v) {
        assert vs'[v].habitantes == Arrays.AddToSet(vs[v].habitantes, id);
      } else {
        assert vs'[v] == vs[v];
      }
    }
  }

  /** Changing only residents keeps the door-number index. */
  lemma MismasPuertas(m: map<Id, Vivienda>, r: map<Id, Vivienda>)
    requires PuertasUnicas(m) && r.Keys <= m.Keys
    requires forall k :: k in r ==> r[k].numeroPuerta == m[k].numeroPuerta && r[k].comunidad == m[k].comunidad
    ensures PuertasUnicas(r)
  {
  }

  /** Changing neither addresses nor keys keeps the e-mail index. */
  lemma MismosEmails(m: map<Id, Usuario>, r: map<Id, Usuario>)
    requires EmailsUnicos(m) && r.Keys <= m.Keys
    requires forall k :: k in r ==> r[k].email == m[k].email
    ensures EmailsUnicos(r)
  {
  }

  // ---------------------------------------------------------------------------------------
  // Administrators: `comunidad.administradores` and `usuario.rol`

  /** `$addToSet: { administradores: u }` on community `cid`. */
  function MeterAdmin(m: map<Id, Comunidad>, cid: Id, u: Id): (r: map<Id, Comunidad>)
    ensures r.Keys == m.Keys
    ensures cid in m ==> r[cid] == m[cid].(administradores := Arrays.AddToSet(m[cid].administradores, u))
    ensures forall k :: k in r && k != cid ==> r[k] == m[k]
  {
    if cid in m then m[cid := m[cid].(administradores := Arrays.AddToSet(m[cid].administradores, u))] else m
  }

  /** `$pull: { administradores: u }` on community `cid`. */
  function SacarAdmin(m: map<Id, Comunidad>, cid: Id, u: Id): (r: map<Id, Comunidad>)
    ensures r.Keys == m.Keys
    ensures cid in m ==> r[cid] == m[cid].(administradores := Arrays.Pull(m[cid].administradores, u))
    ensures forall k :: k in r && k != cid ==> r[k] == m[k]
  {
    if cid in m then m[cid := m[cid].(administradores := Arrays.Pull(m[cid].administradores, u))] else m
  }

  /**
   * Whoever a community lists as administrator is, if stored, an `admin` of that community.
   */
  predicate AdminsCoherentes(cs: map<Id, Comunidad>, us: map<Id, Usuario>)
  {
    forall c, u :: c in cs && u in us && u in cs[c].administradores ==>
      us[u].rol == Admin && us[u].comunidad == Some(c)
  }

  /** Changing only administrators keeps both community indexes. */
  lemma MismasClaves(m: map<Id, Comunidad>, r: map<Id, Comunidad>)
    requires ClavesUnicas(m) && r.Keys <= m.Keys
    requires forall k :: k in r ==> r[k].cif == m[k].cif && r[k].codigo == m[k].codigo
    ensures ClavesUnicas(r)
  {
  }
}
