# Kin En Klin Laundry: a verified model

This project models the core of `main.py`, a small laundry application.
Laundry items have a name, a weight in kilograms and a price. They are kept
in orders, which are saved to and loaded from a JSON file. The app has menu
commands to add an item, list the orders, total the weights and prices,
search items by name, and delete the matching items.

Modules:

- `Seqs` has the list operations the program relies on:
  - the filtering list comprehension (`Filter`);
  - `list.remove` (`RemoveFirst`);
  - the nested comprehension over a list of lists (`Flatten`).
- `Text` has lower-casing and Python's substring test.
- `Laundry` has the data model:
  - `LaundryItem` is a value datatype;
  - `LaundryOrder` is a class whose `items` field its methods update in place;
  - the item and order dictionaries are datatypes too.
- `Storage` covers `simpan_pesanan` and `muat_pesanan`. The JSON file is
  represented by its parsed document, with `None` standing for a file that
  does not exist.
- `App` covers the menu commands of `main()`. The form inputs are
  parameters. The list `laundry_pesanans` is a sequence of `LaundryOrder`
  objects.

The price of an item is the rate of 10000 per kilogram times its weight.
`main.py:79` applies `int()` to this product, which truncates toward zero
rather than rounding. So 0.00017 kg, which is 1.7 at the rate, costs 1 and
not 2 (`App.HargaContoh`).

## Model

| member | source | states |
|---|---|---|
| Seqs.FilterMembers | main.py:33-35 | a comprehension with a condition keeps exactly the passing elements, each as often as in the input, and only them |
| Seqs.FilterSubseq | main.py:33-35 | the kept elements are in their original relative order |
| Seqs.FilterEmpty | main.py:113 | the comprehension is empty if and only if no element passes |
| Seqs.FilterAppend | main.py:107-111 | filtering a concatenation filters each part |
| Seqs.RemoveFirst | main.py:22-23 | `list.remove` needs the element to be present and shortens the list by exactly one |
| Seqs.RemoveFirstMultiset | main.py:23 | `list.remove` takes away exactly one copy of the element and nothing else |
| Seqs.RemoveFirstAt | main.py:23 | `list.remove` cuts out the first occurrence, and the elements before and after it stay in place |
| Seqs.FilterRemoveFirstKept | main.py:143-144 | removing a matching item removes its first occurrence from the matching items |
| Seqs.FilterRemoveFirstDropped | main.py:143-144 | removing a non-matching item leaves the matching items as they were |
| Text.Lower | main.py:110 | lower-casing maps A-Z to a-z and leaves every other character alone |
| Text.ContainsIff | main.py:110 | the substring test succeeds if and only if the needle occurs at some position of the haystack |
| Text.ContainsEmpty | main.py:110 | the empty string occurs in every string |
| Laundry.LaundryItem.ToDict | main.py:12-13 | the dictionary of an item, with its name, weight and price under their keys; ItemsRoundTrip and DictsRoundTrip show that FromDict inverts it |
| Laundry.FromDict | main.py:50 | rebuilds an item from its dictionary by key; ItemsRoundTrip and DictsRoundTrip show that it inverts ToDict |
| Laundry.ItemsRoundTrip | main.py:50 | rebuilding items from their dictionaries, as loading does, gives back the same items in the same order |
| Laundry.DictsRoundTrip | main.py:37-38 | the dictionaries of items rebuilt from dictionaries are the ones they were rebuilt from |
| Laundry.TotalsAppend | main.py:25-31 | both totals of a concatenation are the sums of the parts' totals |
| Laundry.TotalsRemoveFirst | main.py:22-31 | removing one item lowers the weight total by exactly its weight and the price total by exactly its price |
| Laundry.LaundryOrder.constructor | main.py:16-17 | a new order has no items |
| Laundry.LaundryOrder.TambahItem | main.py:19-20 | `tambah_item` appends the item at the end, and both totals grow by exactly its weight and price |
| Laundry.LaundryOrder.HapusItem | main.py:22-23 | `hapus_item` needs the item to be present; afterwards the items are the old ones without their first copy of it, one fewer, and both totals drop by its values |
| Laundry.LaundryOrder.HitungTotalBerat | main.py:25-27 | the sum of the items' weights, 0 for no items; see TotalsAppend, TotalsRemoveFirst, TambahItem and HapusItem |
| Laundry.LaundryOrder.HitungTotalHarga | main.py:29-31 | the sum of the items' prices, 0 for no items; see TotalsAppend, TotalsRemoveFirst, TambahItem and HapusItem |
| Laundry.LaundryOrder.ToDict | main.py:37-38 | the dictionary of an order, holding its items' dictionaries in order; SimpanPesanan proves it is the order's part of the saved document |
| Laundry.LaundryOrder.CariItem | main.py:33-35 | `cari_item` gives exactly the items whose name equals the query: a subsequence of the items, each matching item as often as it occurs, empty exactly when no name matches |
| Storage.DocumentRoundTrip | main.py:40-53 | encoding orders into a document and decoding the document are inverse in both directions |
| Storage.SimpanPesanan | main.py:40-42 | saving writes a file that exists and holds every order's dictionary, in order |
| Storage.MuatPesanan | main.py:44-53 | a missing file loads as no orders; otherwise loading gives one fresh, distinct order per dictionary, holding the items that dictionary describes |
| Storage.SimpanLaluMuat | main.py:40-53 | saving and then loading gives as many orders as before, holding the same items in the same order |
| App.Harga | main.py:79 | the rate of 10000 per kilogram times the weight, truncated toward zero; see TruncToInt and HargaContoh |
| App.TruncToInt | main.py:79 | `int()` truncates toward zero: the result lies within 1 of the argument, on the zero side |
| App.HargaContoh | main.py:79 | 2 kg costs 20000; 0.00017 kg (1.7 at the rate) costs 1 and -0.00017 kg costs -1, showing truncation toward zero rather than rounding |
| App.TotalBeratPesanan | main.py:97-98 | the summed per-order weights equal the total weight of all items of all orders |
| App.TotalHargaPesanan | main.py:101-102 | the summed per-order prices equal the total price of all items of all orders |
| App.TambahItemLaundry | main.py:78-84 | adding an item prices it at the rate, truncated, and appends one fresh order holding just that item; earlier orders are unchanged, the list stays distinct, both grand totals grow by the new item, and the saved file holds the new list |
| App.RowsItems | main.py:89-92 | the listing has one row per item, in the flattened order of the items, with each item's fields and the 1-based number of an existing order |
| App.RowsNumbered | main.py:90-92 | the listing is each order's block of rows in turn, every row of the order at position j numbered j + 1 |
| App.RowsSorted | main.py:90 | order numbers never decrease down the listing |
| App.LihatPesanan | main.py:89-92 | the nested loops produce exactly the listing |
| App.CariItemLaundry | main.py:106-111 | the search gives exactly the matching items of all orders, in listing order; an item is found if and only if some order holds it and its lower-cased name contains the lower-cased query |
| App.CariSemua | main.py:107-111 | an empty query finds every item |
| App.CocokContoh | main.py:110 | "soc" matches "Socks" but neither "Shirt" nor "Dress" |
| App.CariContoh | main.py:107-111 | searching "soc" among Socks, Shirt and Dress finds only Socks |
| App.Pasangan | main.py:126-130 | each matching item paired with the order that holds it, order by order; see PasanganMembers, PasanganCount and PasanganPerOrder |
| App.PasanganMembers | main.py:126-130 | every collected pair names one of the orders and a matching item |
| App.PasanganCount | main.py:126-130 | there are as many pairs as the search finds items |
| App.PasanganPerOrder | main.py:126-130 | the pairs owned by one order hold exactly that order's matching items, in their order |
| App.SisaFlatten | main.py:143-144 | after deletion the remaining items are exactly the non-matching ones, in their original order |
| App.SisaSpec | main.py:143-144 | after deletion nothing matches the query, and the item count has dropped by the number of matches |
| App.ProgressStep | main.py:143-144 | each pair's item is still in its order when its turn comes, so `hapus_item` never raises, and removing it keeps the loop state |
| App.Done | main.py:143-144 | once every pair is processed, each order holds just its non-matching items |
| App.HapusDari | main.py:144 | removing from one order of a distinct list changes that order alone |
| App.HapusPasangan | main.py:143-144 | the deletion loop leaves each order holding exactly its non-matching items |
| App.HapusItemLaundry | main.py:124-146 | deleting removes exactly the matching items, as many as the search finds, keeps the other items of each order in order, and saves only when something matched |

## Left out

- The Streamlit user interface is not modelled: titles, the menu
  selectbox, text and number inputs, buttons, messages, and `tabulate`
  formatting. A command is modelled as the code that runs once its button is
  pressed. The menu and the widget inputs become parameters.
- The "Keluar" menu entry is not modelled. It only shows a message.
- The tables printed for "Cari Item Laundry" and for the found items of
  "Hapus Item Laundry" are not modelled. They only show the found items.
  What is modelled is the list they show and its emptiness test.
- File I/O, the file name and the JSON text are not modelled. The file is
  its parsed document, or `None` when it does not exist. Malformed JSON and
  missing keys raise exceptions in the source and are not modelled.
- Weights are exact reals, not IEEE doubles. Float rounding in `10000 * berat`
  and in the sums is not modelled.
- Lower-casing covers ASCII letters only. Python's full Unicode case mapping
  is not modelled.
- Items are compared by value. Python compares `LaundryItem` objects by
  identity, because the class defines no `__eq__`. So `hapus_item` is
  modelled as removing the first *equal* item. In an order holding two equal
  items this may be a different copy than the source removes, but the items
  left are equal as values. In the deletion command every copy matches the
  query anyway, so the result is the same.
- Laundry.LaundryOrder.HapusItem: requires the item to be present. The
  source raises `ValueError` otherwise, and the error path is not modelled.
- App.HapusItemLaundry: requires the orders to be distinct objects. Every
  order the program holds is created fresh, on loading or on adding, and
  `Storage.MuatPesanan` and `App.TambahItemLaundry` prove this is kept.
