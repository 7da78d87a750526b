/** The command logic of `main()` in main.py, taken out of the user
    interface: adding an item, listing, the two totals, searching and
    deleting. The form inputs become parameters, the list `laundry_pesanans`
    is a sequence of order objects, and the JSON file is the optional
    document of the Storage module. */
module App {
  import opened Wrappers
  import opened Seqs
  import opened Text
  import opened Laundry
  import opened Storage

  /** The fixed rate: 10000 per kilogram. */
  const Tarif: real := 10000.0

  /** Python's `int(x)` on a number: truncation toward zero. */
  function TruncToInt(x: real): (n: int)
    ensures 0.0 <= x ==> 0 <= n && n as real <= x < n as real + 1.0
    ensures x < 0.0 ==> n <= 0 && n as real - 1.0 < x <= n as real
  {
    if x >= 0.0 then x.Floor else -((-x).Floor)
  }

  /** The price of an item of weight `berat`: the rate times the weight,
      truncated to a whole number. */
  function Harga(berat: real): int
  {
    TruncToInt(Tarif * berat)
  }

  /** Two kilograms cost 20000; 0.00017 kg, which is 1.7 at the rate,
      costs 1 and not 2, because the price is truncated toward zero, not
      rounded; a negative weight truncates toward zero as well. */
  lemma HargaContoh()
    ensures Harga(2.0) == 20000
    ensures Harga(0.00017) == 1
    ensures Harga(-0.00017) == -1
  {
    assert Tarif * 2.0 == 20000.0;
    assert Tarif * 0.00017 == 1.7;
    assert Tarif * -0.00017 == -1.7;
  }

  // ---------------------------------------------------------------------
  // Totals

  /** "Hitung Total Berat": the sum of every order's total weight, that is
      the total weight of all items of all orders. */
  function TotalBeratPesanan(pesanans: seq<LaundryOrder>): (total: real)
    reads pesanans
    ensures total == TotalBerat(Flatten(Snapshot(pesanans)))
  {
    if pesanans == [] then 0.0
    else
      assert Snapshot(pesanans) == [pesanans[0].items] + Snapshot(pesanans[1..]);
      TotalsAppend(pesanans[0].items, Flatten(Snapshot(pesanans[1..])));
      pesanans[0].HitungTotalBerat() + TotalBeratPesanan(pesanans[1..])
  }

  /** "Hitung Total Harga": the sum of every order's total price, that is
      the total price of all items of all orders. */
  function TotalHargaPesanan(pesanans: seq<LaundryOrder>): (total: int)
    reads pesanans
    ensures total == TotalHarga(Flatten(Snapshot(pesanans)))
  {
    if pesanans == [] then 0
    else
      assert Snapshot(pesanans) == [pesanans[0].items] + Snapshot(pesanans[1..]);
      TotalsAppend(pesanans[0].items, Flatten(Snapshot(pesanans[1..])));
      pesanans[0].HitungTotalHarga() + TotalHargaPesanan(pesanans[1..])
  }

  // ---------------------------------------------------------------------
  // Adding an item

  /** "Tambah Item Laundry": price the item at the fixed rate, put it in a
      new order of its own, append that order and save the list. Earlier
      orders are untouched, and the totals grow by the new item. */
  method TambahItemLaundry(pesanans: seq<LaundryOrder>, nama: string, berat: real)
    returns (pesanans': seq<LaundryOrder>, item: LaundryItem, file: Option<Document>)
    ensures item == LaundryItem(nama, berat, Harga(berat))
    ensures |pesanans'| == |pesanans| + 1 && pesanans'[..|pesanans|] == pesanans
    ensures fresh(pesanans'[|pesanans|])
    ensures Snapshot(pesanans') == old(Snapshot(pesanans)) + [[item]]
    ensures Distinct(pesanans) ==> Distinct(pesanans')
    ensures TotalBeratPesanan(pesanans') == old(TotalBeratPesanan(pesanans)) + berat
    ensures TotalHargaPesanan(pesanans') == old(TotalHargaPesanan(pesanans)) + Harga(berat)
    ensures file == SimpanPesanan(pesanans')
  {
    ghost var before := Snapshot(pesanans);
    var harga := Harga(berat);
    item := LaundryItem(nama, berat, harga);
    var pesanan := new LaundryOrder();
    pesanan.TambahItem(item);
    pesanans' := pesanans + [pesanan];
    assert Snapshot(pesanans') == before + [[item]] by {
      forall i | 0 <= i < |pesanans'| ensures Snapshot(pesanans')[i] == (before + [[item]])[i] {
        if i < |pesanans| {
          assert pesanans'[i] == pesanans[i];
        }
      }
    }
    assert Snapshot(pesanans) == before;
    FlattenAppend(Snapshot(pesanans), [[item]]);
    assert Flatten([[item]]) == [item];
    TotalsAppend(Flatten(Snapshot(pesanans)), [item]);
    file := SimpanPesanan(pesanans');
  }

  // ---------------------------------------------------------------------
  // Listing

  /** One line of the listing: 1-based order number, name, weight, price. */
  datatype Row = Row(no: nat, nama: string, berat: real, harga: int)

  /** The lines of one order's items, all carrying the order's number. */
  function RowsOf(no: nat, items: seq<LaundryItem>): seq<Row>
  {
    seq(|items|, i requires 0 <= i < |items| => Row(no, items[i].nama, items[i].berat, items[i].harga))
  }

  /** The lines of the listing of `orders`, order by order. */
  function Rows(orders: seq<seq<LaundryItem>>): seq<Row>
  {
    if orders == [] then []
    else Rows(orders[..|orders| - 1]) + RowsOf(|orders|, orders[|orders| - 1])
  }

  /** The listing has one line per item, in the order of the flattened
      items, and each line's number is that of an existing order. */
  lemma {:induction false} RowsItems(orders: seq<seq<LaundryItem>>)
    ensures |Rows(orders)| == |Flatten(orders)|
    ensures forall k :: 0 <= k < |Rows(orders)| ==>
              && Rows(orders)[k].nama == Flatten(orders)[k].nama
              && Rows(orders)[k].berat == Flatten(orders)[k].berat
              && Rows(orders)[k].harga == Flatten(orders)[k].harga
              && 1 <= Rows(orders)[k].no <= |orders|
  {
    if orders != [] {
      var init, last := orders[..|orders| - 1], orders[|orders| - 1];
      assert orders == init + [last];
      RowsItems(init);
      FlattenAppend(init, [last]);
      assert Flatten([last]) == last;
    }
  }

  /** The listing as one block of lines per order, the block of the order at
      position `j` numbered `j + 1`. */
  function Blocks(orders: seq<seq<LaundryItem>>): seq<seq<Row>>
  {
    seq(|orders|, j requires 0 <= j < |orders| => RowsOf(j + 1, orders[j]))
  }

  /** The listing is the blocks of the orders in turn: every line carries the
      1-based position of the order holding its item. */
  lemma {:induction false} RowsNumbered(orders: seq<seq<LaundryItem>>)
    ensures Rows(orders) == Flatten(Blocks(orders))
  {
    if orders != [] {
      var init, last := orders[..|orders| - 1], orders[|orders| - 1];
      RowsNumbered(init);
      assert Blocks(orders) == Blocks(init) + [RowsOf(|orders|, last)];
      FlattenAppend(Blocks(init), [RowsOf(|orders|, last)]);
      assert Flatten([RowsOf(|orders|, last)]) == RowsOf(|orders|, last);
    }
  }

  /** Order numbers never decrease down the listing. */
  lemma {:induction false} RowsSorted(orders: seq<seq<LaundryItem>>)
    ensures forall k, l :: 0 <= k <= l < |Rows(orders)| ==> Rows(orders)[k].no <= Rows(orders)[l].no
  {
    if orders != [] {
      var init := orders[..|orders| - 1];
      RowsSorted(init);
      RowsItems(init);
    }
  }

  /** "Lihat Pesanan": the table rows, built by the two nested loops of the
      source. */
  method LihatPesanan(pesanans: seq<LaundryOrder>) returns (rows: seq<Row>)
    ensures rows == Rows(Snapshot(pesanans))
  {
    ghost var orders := Snapshot(pesanans);
    rows := [];
    var n := 0;
    while n < |pesanans|
      invariant n <= |pesanans|
      invariant rows == Rows(orders[..n])
    {
      var items := pesanans[n].items;
      var i := 0;
      while i < |items|
        invariant i <= |items|
        invariant rows == Rows(orders[..n]) + RowsOf(n + 1, items[..i])
      {
        assert RowsOf(n + 1, items[..i + 1])
            == RowsOf(n + 1, items[..i]) + [Row(n + 1, items[i].nama, items[i].berat, items[i].harga)];
        rows := rows + [Row(n + 1, items[i].nama, items[i].berat, items[i].harga)];
        i := i + 1;
      }
      assert items[..i] == items == orders[n];
      assert orders[..n + 1][..n] == orders[..n];
      n := n + 1;
    }
    assert orders[..n] == orders;
  }

  // ---------------------------------------------------------------------
  // Searching

  /** The search condition: the lower-cased query occurs in the
      lower-cased item name. */
  predicate Matches(query: string, item: LaundryItem)
  {
    Contains(LowerStr(item.nama), LowerStr(query))
  }

  function MatchesQuery(query: string): LaundryItem -> bool
  {
    (item: LaundryItem) => Matches(query, item)
  }

  function NotMatchesQuery(query: string): LaundryItem -> bool
  {
    (item: LaundryItem) => !Matches(query, item)
  }

  /** "Cari Item Laundry": every item of every order that matches the
      query, in listing order. */
  function CariItemLaundry(pesanans: seq<LaundryOrder>, query: string): (found: seq<LaundryItem>)
    reads pesanans
    ensures found == Filter(Flatten(Snapshot(pesanans)), MatchesQuery(query))
    ensures forall item :: item in found <==> item in Flatten(Snapshot(pesanans)) && Matches(query, item)
  {
    FilterMembers(Flatten(Snapshot(pesanans)), MatchesQuery(query));
    if pesanans == [] then []
    else
      assert Snapshot(pesanans) == [pesanans[0].items] + Snapshot(pesanans[1..]);
      FilterAppend(pesanans[0].items, Flatten(Snapshot(pesanans[1..])), MatchesQuery(query));
      Filter(pesanans[0].items, MatchesQuery(query)) + CariItemLaundry(pesanans[1..], query)
  }

  /** An empty query matches every item, so the search lists all of them. */
  lemma CariSemua(pesanans: seq<LaundryOrder>)
    ensures CariItemLaundry(pesanans, "") == Flatten(Snapshot(pesanans))
  {
    var all := Flatten(Snapshot(pesanans));
    assert LowerStr("") == "";
    forall i | 0 <= i < |all| ensures MatchesQuery("")(all[i]) {
      ContainsEmpty(LowerStr(all[i].nama));
    }
    FilterAll(all, MatchesQuery(""));
  }

  /** A string without the letter 's' does not contain "soc". */
  lemma {:induction false} NoS(haystack: string)
    requires forall i :: 0 <= i < |haystack| ==> haystack[i] != 's'
    ensures !Contains(haystack, "soc")
    decreases |haystack|
  {
    if haystack != [] {
      assert haystack[0] != "soc"[0];
      NoS(haystack[1..]);
    }
  }

  /** Neither "shirt" nor "dress" contains "soc". */
  lemma NoSocIn(haystack: string)
    requires haystack == "shirt" || haystack == "dress"
    ensures !Contains(haystack, "soc")
  {
    if haystack == "shirt" {
      NoS("hirt");
      assert "shirt"[1] != "soc"[1];
      assert "shirt"[1..] == "hirt";
    } else {
      assert "dress"[1..] == "ress" && "ress"[1..] == "ess" && "ess"[1..] == "ss" && "ss"[1..] == "s";
      assert !Contains("s"[1..], "soc");
      assert !Contains("s", "soc");
      assert !Contains("ss", "soc");
      assert "ess"[0] != 's' && "ress"[0] != 's' && "dress"[0] != 's';
      assert !Contains("ess", "soc");
      assert !Contains("ress", "soc");
    }
  }

  /** Which of Socks, Shirt and Dress the query "soc" matches. */
  lemma CocokContoh()
    ensures Matches("soc", LaundryItem("Socks", 1.0, 10000))
    ensures !Matches("soc", LaundryItem("Shirt", 2.0, 20000))
    ensures !Matches("soc", LaundryItem("Dress", 1.5, 15000))
  {
    assert LowerStr("soc") == "soc";
    assert LowerStr("Socks") == "socks";
    assert LowerStr("Shirt") == "shirt";
    assert LowerStr("Dress") == "dress";
    NoSocIn("shirt");
    NoSocIn("dress");
  }

  /** Searching "soc" among Socks, Shirt and Dress finds only Socks. */
  lemma CariContoh()
    ensures Filter([LaundryItem("Socks", 1.0, 10000), LaundryItem("Shirt", 2.0, 20000),
                    LaundryItem("Dress", 1.5, 15000)], MatchesQuery("soc"))
         == [LaundryItem("Socks", 1.0, 10000)]
  {
    var socks, shirt, dress :=
      LaundryItem("Socks", 1.0, 10000), LaundryItem("Shirt", 2.0, 20000), LaundryItem("Dress", 1.5, 15000);
    CocokContoh();
    var p := MatchesQuery("soc");
    assert p(socks) && !p(shirt) && !p(dress);
    assert [socks, shirt, dress] == [socks] + [shirt, dress];
    assert [shirt, dress] == [shirt] + [dress];
    assert [dress] == [dress] + [];
    FilterCons(socks, [shirt, dress], p);
    FilterCons(shirt, [dress], p);
    FilterCons(dress, [], p);
  }

  // ---------------------------------------------------------------------
  // Deleting

  /** Pairs every item of `items` with the order `pesanan` that owns it. */
  function Tag(pesanan: LaundryOrder, items: seq<LaundryItem>): seq<(LaundryOrder, LaundryItem)>
  {
    seq(|items|, i requires 0 <= i < |items| => (pesanan, items[i]))
  }

  /** The list of found pairs of "Hapus Item Laundry": each matching item paired
      with its owning order, in listing order. */
  function Pasangan(pesanans: seq<LaundryOrder>, query: string): seq<(LaundryOrder, LaundryItem)>
    reads pesanans
  {
    if pesanans == [] then []
    else Tag(pesanans[0], Filter(pesanans[0].items, MatchesQuery(query))) + Pasangan(pesanans[1..], query)
  }

  /** Every pair is owned by one of the orders and holds a matching item. */
  lemma {:induction false} PasanganMembers(pesanans: seq<LaundryOrder>, query: string)
    ensures forall k :: 0 <= k < |Pasangan(pesanans, query)| ==>
              Pasangan(pesanans, query)[k].0 in pesanans && Matches(query, Pasangan(pesanans, query)[k].1)
  {
    if pesanans != [] {
      var here := Filter(pesanans[0].items, MatchesQuery(query));
      var rest := Pasangan(pesanans[1..], query);
      var pairs := Tag(pesanans[0], here) + rest;
      PasanganMembers(pesanans[1..], query);
      FilterMembers(pesanans[0].items, MatchesQuery(query));
      forall k | 0 <= k < |pairs|
        ensures pairs[k].0 in pesanans && Matches(query, pairs[k].1)
      {
        if k < |here| {
          assert pairs[k] == (pesanans[0], here[k]);
          assert here[k] in here;
        } else {
          assert pairs[k] == rest[k - |here|];
          assert rest[k - |here|].0 in pesanans[1..];
        }
      }
    }
  }

  /** There is one pair per item the search finds. */
  lemma {:induction false} PasanganCount(pesanans: seq<LaundryOrder>, query: string)
    ensures |Pasangan(pesanans, query)| == |CariItemLaundry(pesanans, query)|
  {
    if pesanans != [] {
      PasanganCount(pesanans[1..], query);
    }
  }

  /** The item of one pair, if `pesanan` owns it. */
  function Owned(pair: (LaundryOrder, LaundryItem), pesanan: LaundryOrder): seq<LaundryItem>
  {
    if pair.0 == pesanan then [pair.1] else []
  }

  /** The items that `pairs` pairs with the order `pesanan`, in order. */
  function ItemsOf(pairs: seq<(LaundryOrder, LaundryItem)>, pesanan: LaundryOrder): seq<LaundryItem>
  {
    if pairs == [] then [] else Owned(pairs[0], pesanan) + ItemsOf(pairs[1..], pesanan)
  }

  lemma {:induction false} ItemsOfAppend(a: seq<(LaundryOrder, LaundryItem)>, b: seq<(LaundryOrder, LaundryItem)>,
                                         pesanan: LaundryOrder)
    ensures ItemsOf(a + b, pesanan) == ItemsOf(a, pesanan) + ItemsOf(b, pesanan)
  {
    if a == [] {
      assert a + b == b;
    } else {
      var head := Owned(a[0], pesanan);
      assert (a + b)[0] == a[0];
      assert (a + b)[1..] == a[1..] + b;
      ItemsOfAppend(a[1..], b, pesanan);
      calc {
        ItemsOf(a + b, pesanan);
        head + ItemsOf(a[1..] + b, pesanan);
        head + (ItemsOf(a[1..], pesanan) + ItemsOf(b, pesanan));
        (head + ItemsOf(a[1..], pesanan)) + ItemsOf(b, pesanan);
      }
    }
  }

  lemma {:induction false} ItemsOfTag(owner: LaundryOrder, items: seq<LaundryItem>, pesanan: LaundryOrder)
    ensures ItemsOf(Tag(owner, items), pesanan) == if owner == pesanan then items else []
  {
    if items != [] {
      ItemsOfTag(owner, items[1..], pesanan);
      assert Tag(owner, items)[1..] == Tag(owner, items[1..]);
    }
  }

  lemma {:induction false} ItemsOfAbsent(pairs: seq<(LaundryOrder, LaundryItem)>, pesanan: LaundryOrder)
    requires forall k :: 0 <= k < |pairs| ==> pairs[k].0 != pesanan
    ensures ItemsOf(pairs, pesanan) == []
  {
    if pairs != [] {
      ItemsOfAbsent(pairs[1..], pesanan);
    }
  }

  /** Of the pairs, those owned by one of the (distinct) orders hold
      exactly that order's matching items, in order. */
  lemma {:induction false} PasanganPerOrder(pesanans: seq<LaundryOrder>, query: string, j: nat)
    requires Distinct(pesanans) && j < |pesanans|
    ensures ItemsOf(Pasangan(pesanans, query), pesanans[j]) == Filter(pesanans[j].items, MatchesQuery(query))
  {
    var here := Filter(pesanans[0].items, MatchesQuery(query));
    var tail := pesanans[1..];
    var rest := Pasangan(tail, query);
    assert Pasangan(pesanans, query) == Tag(pesanans[0], here) + rest;
    ItemsOfAppend(Tag(pesanans[0], here), rest, pesanans[j]);
    ItemsOfTag(pesanans[0], here, pesanans[j]);
    if j == 0 {
      PasanganMembers(tail, query);
      assert pesanans[0] !in tail;
      ItemsOfAbsent(rest, pesanans[0]);
    } else {
      assert pesanans[0] != pesanans[j];
      assert Distinct(tail);
      assert tail[j - 1] == pesanans[j];
      PasanganPerOrder(tail, query, j - 1);
    }
  }

  /** What deleting the matches of `query` should leave: every order keeps
      exactly its items that do not match, in their order. */
  function Sisa(orders: seq<seq<LaundryItem>>, query: string): seq<seq<LaundryItem>>
  {
    seq(|orders|, j requires 0 <= j < |orders| => Filter(orders[j], NotMatchesQuery(query)))
  }

  /** Every item either matches or does not. */
  lemma {:induction false} FilterSplit(items: seq<LaundryItem>, query: string)
    ensures |Filter(items, MatchesQuery(query))| + |Filter(items, NotMatchesQuery(query))| == |items|
  {
    if items != [] {
      FilterSplit(items[1..], query);
    }
  }

  /** After the deletion the survivors are exactly the non-matching items,
      in their original order. */
  lemma {:induction false} SisaFlatten(orders: seq<seq<LaundryItem>>, query: string)
    ensures Flatten(Sisa(orders, query)) == Filter(Flatten(orders), NotMatchesQuery(query))
  {
    if orders != [] {
      SisaFlatten(orders[1..], query);
      assert Sisa(orders, query) == [Filter(orders[0], NotMatchesQuery(query))] + Sisa(orders[1..], query);
      FilterAppend(orders[0], Flatten(orders[1..]), NotMatchesQuery(query));
    }
  }

  /** After the deletion nothing matches the query, and the number of items
      has dropped by the number of matches. */
  lemma SisaSpec(orders: seq<seq<LaundryItem>>, query: string)
    ensures Filter(Flatten(Sisa(orders, query)), MatchesQuery(query)) == []
    ensures |Flatten(Sisa(orders, query))| + |Filter(Flatten(orders), MatchesQuery(query))| == |Flatten(orders)|
  {
    SisaFlatten(orders, query);
    var left := Filter(Flatten(orders), NotMatchesQuery(query));
    FilterMembers(Flatten(orders), NotMatchesQuery(query));
    FilterEmpty(left, MatchesQuery(query));
    assert forall i :: 0 <= i < |left| ==> left[i] in left;
    FilterSplit(Flatten(orders), query);
  }

  /** Extending the processed prefix of the pairs by one pair adds that
      pair's item to its owner's processed items and nothing to any other
      order's. */
  lemma ItemsOfPrefix(pairs: seq<(LaundryOrder, LaundryItem)>, k: nat, pesanan: LaundryOrder)
    requires k < |pairs|
    ensures ItemsOf(pairs[..k + 1], pesanan) == ItemsOf(pairs[..k], pesanan) + Owned(pairs[k], pesanan)
  {
    assert pairs[..k + 1] == pairs[..k] + [pairs[k]];
    ItemsOfAppend(pairs[..k], [pairs[k]], pesanan);
  }

  /** The item of pair `k` is the next of its owner's items in `pairs`
      after those of the first `k` pairs. */
  lemma ItemsOfNext(pairs: seq<(LaundryOrder, LaundryItem)>, k: nat)
    requires k < |pairs|
    ensures |ItemsOf(pairs[..k], pairs[k].0)| < |ItemsOf(pairs, pairs[k].0)|
    ensures ItemsOf(pairs, pairs[k].0)[|ItemsOf(pairs[..k], pairs[k].0)|] == pairs[k].1
  {
    var owner := pairs[k].0;
    ItemsOfPrefix(pairs, k, owner);
    assert pairs == pairs[..k + 1] + pairs[k + 1..];
    ItemsOfAppend(pairs[..k + 1], pairs[k + 1..], owner);
  }

  /** Removing the next matching item `matching[c]` from an order whose
      matching items still to go are `matching[c..]`: the item is there,
      one fewer matching item is left, and the others stay. */
  lemma RemoveNext(items: seq<LaundryItem>, matching: seq<LaundryItem>, c: nat, query: string)
    requires c < |matching| && Filter(items, MatchesQuery(query)) == matching[c..]
    ensures matching[c] in items
    ensures Filter(RemoveFirst(items, matching[c]), MatchesQuery(query)) == matching[c + 1..]
    ensures Filter(RemoveFirst(items, matching[c]), NotMatchesQuery(query)) == Filter(items, NotMatchesQuery(query))
  {
    var item := matching[c];
    FilterMembers(items, MatchesQuery(query));
    assert item == Filter(items, MatchesQuery(query))[0];
    assert item in Filter(items, MatchesQuery(query));
    assert item in multiset(Filter(items, MatchesQuery(query)));
    assert item in items;
    assert Matches(query, item);
    FilterRemoveFirstKept(items, item, MatchesQuery(query));
    FilterRemoveFirstDropped(items, item, NotMatchesQuery(query));
    assert matching[c + 1..] == matching[c..][1..];
  }

  /** One order during the deletion loop: `items` are its current items,
      `original` those it started with and `removed` those of its matching
      items already taken out. The matching items still to go are the
      original matching items after the removed ones; the non-matching
      items are untouched. */
  ghost predicate OrderProgress(items: seq<LaundryItem>, original: seq<LaundryItem>,
                                removed: seq<LaundryItem>, query: string)
  {
    && |removed| <= |Filter(original, MatchesQuery(query))|
    && Filter(items, MatchesQuery(query)) == Filter(original, MatchesQuery(query))[|removed|..]
    && Filter(items, NotMatchesQuery(query)) == Filter(original, NotMatchesQuery(query))
  }

  /** The state of the deletion loop after `k` pairs, `orders` being the
      current item lists of `pesanans` and `before` their original ones. */
  ghost predicate Progress(orders: seq<seq<LaundryItem>>, pesanans: seq<LaundryOrder>,
                           before: seq<seq<LaundryItem>>, pairs: seq<(LaundryOrder, LaundryItem)>,
                           query: string, k: nat)
  {
    && |orders| == |pesanans| == |before|
    && k <= |pairs|
    && forall j :: 0 <= j < |pesanans| ==>
         OrderProgress(orders[j], before[j], ItemsOf(pairs[..k], pesanans[j]), query)
  }

  /** The pairs still to be processed hold, per order, the rest of its
      matching items. */
  ghost predicate Pending(pesanans: seq<LaundryOrder>, before: seq<seq<LaundryItem>>,
                          pairs: seq<(LaundryOrder, LaundryItem)>, query: string)
    requires |before| == |pesanans|
  {
    forall i :: 0 <= i < |pesanans| ==> ItemsOf(pairs, pesanans[i]) == Filter(before[i], MatchesQuery(query))
  }

  /** Removing the next matching item from the order that owns pair `k`
      advances that order's state by that item. */
  lemma OrderStep(items: seq<LaundryItem>, original: seq<LaundryItem>,
                  pairs: seq<(LaundryOrder, LaundryItem)>, k: nat, query: string)
    requires k < |pairs|
    requires ItemsOf(pairs, pairs[k].0) == Filter(original, MatchesQuery(query))
    requires OrderProgress(items, original, ItemsOf(pairs[..k], pairs[k].0), query)
    ensures pairs[k].1 in items
    ensures OrderProgress(RemoveFirst(items, pairs[k].1), original, ItemsOf(pairs[..k + 1], pairs[k].0), query)
  {
    var owner := pairs[k].0;
    var c := |ItemsOf(pairs[..k], owner)|;
    ItemsOfNext(pairs, k);
    ItemsOfPrefix(pairs, k, owner);
    RemoveNext(items, Filter(original, MatchesQuery(query)), c, query);
    assert ItemsOf(pairs[..k + 1], owner) == ItemsOf(pairs[..k], owner) + [pairs[k].1];
  }

  /** Processing pair `k` leaves the state of every order that does not
      own it as it was. */
  lemma OrderSkip(items: seq<LaundryItem>, original: seq<LaundryItem>,
                  pairs: seq<(LaundryOrder, LaundryItem)>, k: nat, pesanan: LaundryOrder, query: string)
    requires k < |pairs| && pairs[k].0 != pesanan
    requires OrderProgress(items, original, ItemsOf(pairs[..k], pesanan), query)
    ensures OrderProgress(items, original, ItemsOf(pairs[..k + 1], pesanan), query)
  {
    ItemsOfPrefix(pairs, k, pesanan);
    assert ItemsOf(pairs[..k + 1], pesanan) == ItemsOf(pairs[..k], pesanan) + [];
  }

  /** Processing pair `k`, owned by order `j`: its item is in that order,
      and removing it there brings the loop state to `k + 1`. */
  lemma ProgressStep(orders: seq<seq<LaundryItem>>, pesanans: seq<LaundryOrder>,
                     before: seq<seq<LaundryItem>>, pairs: seq<(LaundryOrder, LaundryItem)>,
                     query: string, k: nat, j: nat)
    requires Progress(orders, pesanans, before, pairs, query, k)
    requires Distinct(pesanans) && Pending(pesanans, before, pairs, query)
    requires k < |pairs| && j < |pesanans| && pairs[k].0 == pesanans[j]
    ensures pairs[k].1 in orders[j]
    ensures Progress(orders[j := RemoveFirst(orders[j], pairs[k].1)], pesanans, before, pairs, query, k + 1)
  {
    OrderStep(orders[j], before[j], pairs, k, query);
    var orders' := orders[j := RemoveFirst(orders[j], pairs[k].1)];
    forall i | 0 <= i < |pesanans|
      ensures OrderProgress(orders'[i], before[i], ItemsOf(pairs[..k + 1], pesanans[i]), query)
    {
      if i != j {
        assert pesanans[i] != pesanans[j];
        OrderSkip(orders[i], before[i], pairs, k, pesanans[i], query);
      }
    }
  }

  /** Once every pair is processed, each order holds just its non-matching
      items. */
  lemma Done(orders: seq<seq<LaundryItem>>, pesanans: seq<LaundryOrder>,
             before: seq<seq<LaundryItem>>, pairs: seq<(LaundryOrder, LaundryItem)>, query: string)
    requires Progress(orders, pesanans, before, pairs, query, |pairs|)
    requires Pending(pesanans, before, pairs, query)
    ensures orders == Sisa(before, query)
  {
    assert pairs[..|pairs|] == pairs;
    forall j | 0 <= j < |pesanans| ensures orders[j] == Sisa(before, query)[j] {
      assert OrderProgress(orders[j], before[j], ItemsOf(pairs, pesanans[j]), query);
      assert Filter(orders[j], MatchesQuery(query)) == [];
      FilterEmpty(orders[j], MatchesQuery(query));
      FilterAll(orders[j], NotMatchesQuery(query));
    }
  }

  /** Before any pair is processed, the loop state holds trivially. */
  lemma ProgressStart(orders: seq<seq<LaundryItem>>, pesanans: seq<LaundryOrder>,
                      pairs: seq<(LaundryOrder, LaundryItem)>, query: string)
    requires |orders| == |pesanans|
    ensures Progress(orders, pesanans, orders, pairs, query, 0)
  {
    forall j | 0 <= j < |pesanans|
      ensures OrderProgress(orders[j], orders[j], ItemsOf(pairs[..0], pesanans[j]), query)
    {
      assert pairs[..0] == [];
      assert Filter(orders[j], MatchesQuery(query)) == Filter(orders[j], MatchesQuery(query))[0..];
    }
  }

  /** `hapus_item` on the order at position `j` of the list:
      that order loses the first copy of `item`, every other order keeps
      its items. */
  method HapusDari(pesanans: seq<LaundryOrder>, ghost j: nat, pesanan: LaundryOrder, item: LaundryItem)
    requires Distinct(pesanans) && j < |pesanans| && pesanans[j] == pesanan
    requires item in pesanan.items
    modifies pesanan
    ensures Snapshot(pesanans) == old(Snapshot(pesanans))[j := RemoveFirst(old(pesanan.items), item)]
  {
    pesanan.HapusItem(item);
    forall i | 0 <= i < |pesanans| && i != j
      ensures pesanans[i].items == old(pesanans[i].items)
    {
      assert pesanans[i] != pesanan;
    }
  }

  /** The loop of "Hapus Item Laundry": `hapus_item` for each
      collected pair in turn. Given pairs that hold, per order, exactly that
      order's matching items, it leaves each order with just its
      non-matching items. */
  method HapusPasangan(pesanans: seq<LaundryOrder>, pairs: seq<(LaundryOrder, LaundryItem)>, query: string)
    requires Distinct(pesanans)
    requires forall k :: 0 <= k < |pairs| ==> pairs[k].0 in pesanans
    requires forall j :: 0 <= j < |pesanans| ==>
               ItemsOf(pairs, pesanans[j]) == Filter(pesanans[j].items, MatchesQuery(query))
    modifies pesanans
    ensures Snapshot(pesanans) == Sisa(old(Snapshot(pesanans)), query)
  {
    ghost var before := Snapshot(pesanans);
    ghost var orders := before;
    assert Pending(pesanans, before, pairs, query);
    ProgressStart(before, pesanans, pairs, query);
    var k: nat := 0;
    while k < |pairs|
      invariant orders == Snapshot(pesanans)
      invariant Progress(orders, pesanans, before, pairs, query, k)
    {
      var pesanan := pairs[k].0;
      var item := pairs[k].1;
      ghost var j :| 0 <= j < |pesanans| && pesanans[j] == pesanan;
      ProgressStep(orders, pesanans, before, pairs, query, k, j);
      assert item in pesanan.items by {
        assert orders[j] == pesanan.items;
      }
      HapusDari(pesanans, j, pesanan, item);
      orders := orders[j := RemoveFirst(orders[j], item)];
      k := k + 1;
    }
    Done(orders, pesanans, before, pairs, query);
  }

  /** "Hapus Item Laundry": collect the matching (order, item) pairs; if there
      are any, remove each item from its order and save the list. Returns
      how many items were removed. */
  method HapusItemLaundry(pesanans: seq<LaundryOrder>, query: string, file: Option<Document>)
    returns (removed: nat, file': Option<Document>)
    requires Distinct(pesanans)
    modifies pesanans
    ensures Snapshot(pesanans) == Sisa(old(Snapshot(pesanans)), query)
    ensures removed == |old(CariItemLaundry(pesanans, query))|
    ensures file' == if removed == 0 then file else SimpanPesanan(pesanans)
  {
    var pairs := Pasangan(pesanans, query);
    removed := |pairs|;
    PasanganCount(pesanans, query);
    PasanganMembers(pesanans, query);
    forall j | 0 <= j < |pesanans|
      ensures ItemsOf(pairs, pesanans[j]) == Filter(pesanans[j].items, MatchesQuery(query))
    {
      PasanganPerOrder(pesanans, query, j);
    }
    if removed > 0 {
      HapusPasangan(pesanans, pairs, query);
      file' := SimpanPesanan(pesanans);
    } else {
      ghost var before := Snapshot(pesanans);
      assert Pending(pesanans, before, pairs, query);
      ProgressStart(before, pesanans, pairs, query);
      Done(before, pesanans, before, pairs, query);
      file' := file;
    }
  }
}
