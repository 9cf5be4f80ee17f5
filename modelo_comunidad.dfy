/** The community schema: four required texts, unique `cif` and `codigo`, the administrator list. */
module ModeloComunidad {
  import opened Common
  import Texto

  datatype Comunidad = Comunidad(
    nombre: string,
    direccion: string,
    cif: string,
    codigo: string,
    administradores: seq<Id>)

  /** Every text path is required and stored trimmed. */
  predicate EsValida(c: Comunidad)
  {
    && c.nombre != [] && c.nombre == Texto.Trim(c.nombre)
    && c.direccion != [] && c.direccion == Texto.Trim(c.direccion)
    && c.cif != [] && c.cif == Texto.Trim(c.cif)
    && c.codigo != [] && c.codigo == Texto.Trim(c.codigo)
  }

  /** Saving a community: the trim setters, then the required checks. */
  function Guardar(c: Comunidad): (r: Result<Comunidad>)
    ensures r.Ok? <==>
      && Texto.Trim(c.nombre) != [] && Texto.Trim(c.direccion) != []
      && Texto.Trim(c.cif) != [] && Texto.Trim(c.codigo) != []
    ensures r.Ok? ==> EsValida(r.value) && r.value.administradores == c.administradores
    ensures r.Ok? ==> r.value.cif == Texto.Trim(c.cif) && r.value.codigo == Texto.Trim(c.codigo)
    ensures r.Err? ==> r.failure == Failure(400, SchemaValidation)
  {
    Texto.TrimIdempotent(c.nombre);
    Texto.TrimIdempotent(c.direccion);
    Texto.TrimIdempotent(c.cif);
    Texto.TrimIdempotent(c.codigo);
    var n := Comunidad(Texto.Trim(c.nombre), Texto.Trim(c.direccion), Texto.Trim(c.cif),
      Texto.Trim(c.codigo), c.administradores);
    if EsValida(n) then Ok(n) else Fail(400, SchemaValidation)
  }

  /** The unique indexes on `cif` and on `codigo`. */
  predicate ClavesUnicas(m: map<Id, Comunidad>)
  {
    && (forall a, b :: a in m && b in m && m[a].cif == m[b].cif ==> a == b)
    && (forall a, b :: a in m && b in m && m[a].codigo == m[b].codigo ==> a == b)
  }

  predicate CifOcupado(m: map<Id, Comunidad>, cif: string, excepto: Option<Id>)
  {
    exists k :: k in m && Some(k) != excepto && m[k].cif == cif
  }

  predicate CodigoOcupado(m: map<Id, Comunidad>, codigo: string, excepto: Option<Id>)
  {
    exists k :: k in m && Some(k) != excepto && m[k].codigo == codigo
  }

  /** Writing community `id` under both indexes: any clash is a duplicate-key error (400). */
  function Escribir(m: map<Id, Comunidad>, id: Id, c: Comunidad): (r: Result<map<Id, Comunidad>>)
    ensures r.Ok? <==> !CifOcupado(m, c.cif, Some(id)) && !CodigoOcupado(m, c.codigo, Some(id))
    ensures r.Ok? ==> r.value == m[id := c]
    ensures r.Err? ==> r.failure == Failure(400, DuplicateKey)
  {
    if CifOcupado(m, c.cif, Some(id)) || CodigoOcupado(m, c.codigo, Some(id)) then Fail(400, DuplicateKey)
    else Ok(m[id := c])
  }

  lemma EscribirConservaIndices(m: map<Id, Comunidad>, id: Id, c: Comunidad)
    requires ClavesUnicas(m)
    ensures Escribir(m, id, c).Ok? ==> ClavesUnicas(Escribir(m, id, c).value)
  {
    if Escribir(m, id, c).Ok? {
      var m' := m[id := c];
      forall a, b | a in m' && b in m'
        ensures (m'[a].cif == m'[b].cif ==> a == b) && (m'[a].codigo == m'[b].codigo ==> a == b)
      {
        if a != id {
          assert m'[a] == m[a];
        }
        if b != id {
          assert m'[b] == m[b];
        }
      }
    }
  }

  /** The community whose join code is `codigo`, if any. */
  predicate TieneCodigo(m: map<Id, Comunidad>, codigo: string, k: Id)
  {
    k in m && m[k].codigo == codigo
  }
}
