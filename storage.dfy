/** Persistence of the list of orders (`simpan_pesanan`, `muat_pesanan`).
    The JSON file is modelled by its parsed value, a list of order
    dictionaries, and the file system by an optional such value: `None` is a
    file that does not exist. */
module Storage {
  import opened Wrappers
  import opened Laundry

  /** The parsed content of the JSON file: one dictionary per order. */
  type Document = seq<OrderRecord>

  /** The document that holds the given item lists, order by order. */
  function EncodeDocument(orders: seq<seq<LaundryItem>>): Document
  {
    seq(|orders|, i requires 0 <= i < |orders| => OrderRecord(ItemsToDicts(orders[i])))
  }

  /** The item lists that a document describes, order by order. */
  function DecodeDocument(data: Document): seq<seq<LaundryItem>>
  {
    seq(|data|, i requires 0 <= i < |data| => ItemsFromDicts(data[i].items))
  }

  /** Encoding and decoding are inverse to each other in both directions. */
  lemma {:induction false} DocumentRoundTrip(orders: seq<seq<LaundryItem>>, data: Document)
    ensures DecodeDocument(EncodeDocument(orders)) == orders
    ensures EncodeDocument(DecodeDocument(data)) == data
  {
    forall i | 0 <= i < |orders|
      ensures DecodeDocument(EncodeDocument(orders))[i] == orders[i]
    {
      ItemsRoundTrip(orders[i]);
    }
    forall i | 0 <= i < |data|
      ensures EncodeDocument(DecodeDocument(data))[i] == data[i]
    {
      DictsRoundTrip(data[i].items);
    }
  }

  /** `simpan_pesanan`: the file afterwards exists and holds every order's
      dictionary, in order. */
  function SimpanPesanan(pesanans: seq<LaundryOrder>): (file: Option<Document>)
    reads pesanans
    ensures file == Some(EncodeDocument(Snapshot(pesanans)))
  {
    var data := seq(|pesanans|, i requires 0 <= i < |pesanans| reads pesanans => pesanans[i].ToDict());
    assert data == EncodeDocument(Snapshot(pesanans)) by {
      var encoded := EncodeDocument(Snapshot(pesanans));
      assert |data| == |encoded|;
      forall i | 0 <= i < |pesanans| ensures data[i] == encoded[i] {
        assert Snapshot(pesanans)[i] == pesanans[i].items;
      }
    }
    Some(data)
  }

  /** The item lists that loading `file` yields: none for a missing file. */
  function Loaded(file: Option<Document>): seq<seq<LaundryItem>>
  {
    match file
    case None => []
    case Some(data) => DecodeDocument(data)
  }

  /** `muat_pesanan`: a missing file gives no orders; otherwise one new,
      distinct order per dictionary, whose items are rebuilt from it. */
  method MuatPesanan(file: Option<Document>) returns (pesanans: seq<LaundryOrder>)
    ensures file.None? ==> pesanans == []
    ensures file.Some? ==> |pesanans| == |file.value|
    ensures Snapshot(pesanans) == Loaded(file)
    ensures Distinct(pesanans)
    ensures forall i :: 0 <= i < |pesanans| ==> fresh(pesanans[i])
  {
    match file
    case None =>
      pesanans := [];
    case Some(data) =>
      // First one new, empty order per dictionary ...
      pesanans := [];
      while |pesanans| < |data|
        invariant |pesanans| <= |data|
        invariant Distinct(pesanans)
        invariant forall i :: 0 <= i < |pesanans| ==> fresh(pesanans[i])
      {
        var pesanan := new LaundryOrder();
        pesanans := pesanans + [pesanan];
      }
      // ... then each order gets the items rebuilt from its dictionary.
      var k := 0;
      while k < |pesanans|
        invariant k <= |pesanans|
        invariant forall i :: 0 <= i < k ==> pesanans[i].items == ItemsFromDicts(data[i].items)
      {
        pesanans[k].items := ItemsFromDicts(data[k].items);
        k := k + 1;
      }
  }

  /** Saving the orders and loading the file back gives new orders holding
      the same items, in the same order. */
  method SimpanLaluMuat(pesanans: seq<LaundryOrder>) returns (loaded: seq<LaundryOrder>)
    ensures |loaded| == |pesanans|
    ensures Snapshot(loaded) == Snapshot(pesanans)
  {
    var file := SimpanPesanan(pesanans);
    DocumentRoundTrip(Snapshot(pesanans), []);
    loaded := MuatPesanan(file);
  }
}
