/** The static product catalog: a read-only list of products fixed at startup.
    Prices are whole cents, so 89.99 is 8999. */
module Catalog {

  datatype Option<T> = None | Some(value: T)

  /** One product record. Ids are unique within the catalog. */
  datatype Product = Product(id: int, name: string, price: nat, image: string)

  const Products: seq<Product> := [
    Product(1, "Classic White Tee", 2500, "https://placehold.co/300x200/333/FFF?text=White+Tee"),
    Product(2, "Denim Jacket", 8999, "https://placehold.co/300x200/444/FFF?text=Denim+Jacket"),
    Product(3, "Summer Dress", 4500, "https://placehold.co/300x200/e84393/FFF?text=Summer+Dress"),
    Product(4, "Cargo Shorts", 3550, "https://placehold.co/300x200/0984e3/FFF?text=Cargo+Shorts"),
    Product(5, "Casual Hoodie", 5500, "https://placehold.co/300x200/636e72/FFF?text=Hoodie"),
    Product(6, "Sneakers", 7500, "https://placehold.co/300x200/d63031/FFF?text=Sneakers")
  ]

  /** No two products of `ps` share an id. */
  predicate DistinctIds(ps: seq<Product>) {
    forall i, j :: 0 <= i < j < |ps| ==> ps[i].id != ps[j].id
  }

  /** The first product of `ps` whose id is `id`, scanning from the front. */
  function FindIn(ps: seq<Product>, id: int): (r: Option<Product>)
    ensures r.Some? ==> r.value.id == id
    ensures r.None? <==> forall k :: 0 <= k < |ps| ==> ps[k].id != id
  {
    if ps == [] then None
    else if ps[0].id == id then Some(ps[0])
    else FindIn(ps[1..], id)
  }

  /** A found product is an entry of `ps`, and no earlier entry has its id. */
  lemma {:induction false} FindInFirst(ps: seq<Product>, id: int)
    ensures FindIn(ps, id).Some? ==>
      exists k :: 0 <= k < |ps| && ps[k] == FindIn(ps, id).value &&
        forall j :: 0 <= j < k ==> ps[j].id != id
  {
    if ps != [] && ps[0].id != id && FindIn(ps, id).Some? {
      var tail := ps[1..];
      FindInFirst(tail, id);
      var k :| 0 <= k < |tail| && tail[k] == FindIn(ps, id).value &&
        forall j :: 0 <= j < k ==> tail[j].id != id;
      assert ps[k + 1] == tail[k];
      forall j | 0 < j < k + 1
        ensures ps[j].id != id
      {
        assert ps[j] == tail[j - 1];
      }
    }
  }

  /** With distinct ids, looking up an entry's id returns that entry. */
  lemma {:induction false} FindInEntry(ps: seq<Product>, k: nat)
    requires DistinctIds(ps) && k < |ps|
    ensures FindIn(ps, ps[k].id) == Some(ps[k])
  {
    if k > 0 {
      assert ps[1..][k - 1] == ps[k];
      FindInEntry(ps[1..], k - 1);
    }
  }

  /** Catalog lookup by id: the catalog holds exactly the ids 1 to 6. */
  function Find(id: int): (r: Option<Product>)
    ensures r.Some? ==> r.value.id == id
    ensures r.Some? <==> 1 <= id <= 6
  {
    FindIn(Products, id)
  }

  /** Every catalog entry is what looking up its own id returns. */
  lemma FindEntry(k: nat)
    requires k < |Products|
    ensures Find(Products[k].id) == Some(Products[k])
  {
    assert DistinctIds(Products);
    FindInEntry(Products, k);
  }
}
