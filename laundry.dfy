/** The data model of main.py: a laundry item (`LaundryItem`), its dictionary
    form, and an order (`LaundryOrder`) whose list of items is updated in
    place. */
module Laundry {
  import opened Seqs

  /** The dictionary `{"nama": ..., "berat": ..., "harga": ...}` that an item
      is stored as. */
  datatype ItemRecord = ItemRecord(nama: string, berat: real, harga: int)

  /** The dictionary `{"items": [...]}` that an order is stored as. */
  datatype OrderRecord = OrderRecord(items: seq<ItemRecord>)

  /** A laundry item: its name, its weight in kilograms and its price.
      Items are compared by value. */
  datatype LaundryItem = LaundryItem(nama: string, berat: real, harga: int)
  {
    /** `LaundryItem.to_dict`. */
    function ToDict(): ItemRecord
    {
      ItemRecord(nama, berat, harga)
    }
  }

  /** Rebuild an item from its dictionary, field by field by key. */
  function FromDict(d: ItemRecord): LaundryItem
  {
    LaundryItem(d.nama, d.berat, d.harga)
  }

  /** The dictionaries of a list of items, in order. */
  function ItemsToDicts(items: seq<LaundryItem>): seq<ItemRecord>
  {
    seq(|items|, i requires 0 <= i < |items| => items[i].ToDict())
  }

  /** The items rebuilt from a list of dictionaries, in order. */
  function ItemsFromDicts(ds: seq<ItemRecord>): seq<LaundryItem>
  {
    seq(|ds|, i requires 0 <= i < |ds| => FromDict(ds[i]))
  }

  /** Rebuilding the items from their dictionaries gives the same items in
      the same order. */
  lemma ItemsRoundTrip(items: seq<LaundryItem>)
    ensures ItemsFromDicts(ItemsToDicts(items)) == items
  {
    assert forall i :: 0 <= i < |items| ==> ItemsFromDicts(ItemsToDicts(items))[i] == items[i];
  }

  /** The dictionaries of rebuilt items are the ones they were built from. */
  lemma DictsRoundTrip(ds: seq<ItemRecord>)
    ensures ItemsToDicts(ItemsFromDicts(ds)) == ds
  {
    assert forall i :: 0 <= i < |ds| ==> ItemsToDicts(ItemsFromDicts(ds))[i] == ds[i];
  }

  /** The sum of the items' weights; 0 for no items. */
  function TotalBerat(items: seq<LaundryItem>): real
  {
    if items == [] then 0.0 else items[0].berat + TotalBerat(items[1..])
  }

  /** The sum of the items' prices; 0 for no items. */
  function TotalHarga(items: seq<LaundryItem>): int
  {
    if items == [] then 0 else items[0].harga + TotalHarga(items[1..])
  }

  /** Totals of a concatenation are the sums of the parts' totals. */
  lemma {:induction false} TotalsAppend(a: seq<LaundryItem>, b: seq<LaundryItem>)
    ensures TotalBerat(a + b) == TotalBerat(a) + TotalBerat(b)
    ensures TotalHarga(a + b) == TotalHarga(a) + TotalHarga(b)
  {
    if a == [] {
      assert a + b == b;
    } else {
      assert (a + b)[0] == a[0];
      assert (a + b)[1..] == a[1..] + b;
      TotalsAppend(a[1..], b);
    }
  }

  /** Removing one occurrence of an item lowers both totals by exactly that
      item's weight and price. */
  lemma {:induction false} TotalsRemoveFirst(items: seq<LaundryItem>, item: LaundryItem)
    requires item in items
    ensures TotalBerat(RemoveFirst(items, item)) == TotalBerat(items) - item.berat
    ensures TotalHarga(RemoveFirst(items, item)) == TotalHarga(items) - item.harga
  {
    if items[0] != item {
      TotalsRemoveFirst(items[1..], item);
      var r := RemoveFirst(items[1..], item);
      assert ([items[0]] + r)[1..] == r;
    }
  }

  /** The condition of `cari_item`: the name equals `nama` exactly. */
  function HasNama(nama: string): LaundryItem -> bool
  {
    (item: LaundryItem) => item.nama == nama
  }

  /** An order: a list of items that grows and shrinks in place. */
  class LaundryOrder {
    var items: seq<LaundryItem>

    /** A new order is empty. */
    constructor ()
      ensures items == []
    {
      items := [];
    }

    /** `tambah_item`: append `item`; both totals grow by exactly its
        weight and price. */
    method TambahItem(item: LaundryItem)
      modifies this
      ensures items == old(items) + [item]
      ensures HitungTotalBerat() == old(HitungTotalBerat()) + item.berat
      ensures HitungTotalHarga() == old(HitungTotalHarga()) + item.harga
    {
      TotalsAppend(items, [item]);
      items := items + [item];
    }

    /** `hapus_item`: Python's `list.remove`, which raises unless `item` is
        present; the first equal item goes, the others keep their order. */
    method HapusItem(item: LaundryItem)
      requires item in items
      modifies this
      ensures items == RemoveFirst(old(items), item)
      ensures |items| == |old(items)| - 1
      ensures HitungTotalBerat() == old(HitungTotalBerat()) - item.berat
      ensures HitungTotalHarga() == old(HitungTotalHarga()) - item.harga
    {
      TotalsRemoveFirst(items, item);
      items := RemoveFirst(items, item);
    }

    /** `hitung_total_berat`. */
    function HitungTotalBerat(): real
      reads this
    {
      TotalBerat(items)
    }

    /** `hitung_total_harga`. */
    function HitungTotalHarga(): int
      reads this
    {
      TotalHarga(items)
    }

    /** `cari_item`: exactly the items named `nama`, in their order, each
        as often as it occurs; empty exactly when no item has that name. */
    function CariItem(nama: string): (found: seq<LaundryItem>)
      reads this
      ensures IsSubseq(found, items)
      ensures forall item :: item in found <==> item in items && item.nama == nama
      ensures forall item :: item in items && item.nama == nama ==>
                multiset(found)[item] == multiset(items)[item]
      ensures found == [] <==> forall i :: 0 <= i < |items| ==> items[i].nama != nama
    {
      FilterSubseq(items, HasNama(nama));
      FilterMembers(items, HasNama(nama));
      FilterEmpty(items, HasNama(nama));
      Filter(items, HasNama(nama))
    }

    /** `LaundryOrder.to_dict`. */
    function ToDict(): OrderRecord
      reads this
    {
      OrderRecord(ItemsToDicts(items))
    }
  }

  /** The item lists of a list of orders, read at the current state. */
  function Snapshot(orders: seq<LaundryOrder>): (s: seq<seq<LaundryItem>>)
    reads orders
    ensures |s| == |orders| && forall i :: 0 <= i < |orders| ==> s[i] == orders[i].items
  {
    seq(|orders|, i requires 0 <= i < |orders| reads orders => orders[i].items)
  }

  /** No order object appears twice in the list. Every order the program
      holds was allocated by itself, once, so this always holds there. */
  ghost predicate Distinct(orders: seq<LaundryOrder>)
  {
    forall i, j :: 0 <= i < j < |orders| ==> orders[i] != orders[j]
  }
}
