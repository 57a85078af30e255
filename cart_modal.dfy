/** The cart drawer: what it shows for a list of herbs, and the WhatsApp
    link its order button opens, whose text is a fixed greeting followed by
    one line per herb in the cart. */
module CartModal {
  import opened Common
  import opened Text
  import opened Types

  /** A herb in the cart: the suggestion and the `id` the cart keys it by,
      which the result records of the client do not declare. */
  datatype CartItem = CartItem(id: string, herb: HerbSuggestion)

  const WhatsAppNumber := "910000000000"
  const Header := "Hello! I'd like to place an order for the following Ayurvedic herbs from AyurConnect AI:\n\n"
  const UrlPrefix := "https://wa.me/" + WhatsAppNumber + "?text="

  /** `- ${item.name}`. */
  function ItemLine(item: CartItem): string {
    "- " + item.herb.name
  }

  /** The message before encoding: the greeting, then the item lines
      separated by single newlines, with none after the last. */
  function OrderMessage(items: seq<CartItem>): string {
    Header + Join(MapSeq(ItemLine, items), "\n")
  }

  /** The link `handlePlaceOrder` opens; `encode` stands for
      `encodeURIComponent`. */
  function OrderUrl(items: seq<CartItem>, encode: string -> string): (url: string)
    ensures |UrlPrefix| <= |url| && url[..|UrlPrefix|] == UrlPrefix
    ensures url[|UrlPrefix|..] == encode(OrderMessage(items))
  {
    UrlPrefix + encode(OrderMessage(items))
  }

  predicate NoNewline(items: seq<CartItem>) {
    forall i :: 0 <= i < |items| ==> '\n' !in items[i].herb.name
  }

  /** Read back line by line, the message of a non-empty cart is the
      greeting followed by exactly one line per herb, in cart order; in
      particular no empty line trails the last herb. */
  lemma OrderMessageLines(items: seq<CartItem>)
    requires items != [] && NoNewline(items)
    ensures |Header| <= |OrderMessage(items)| && OrderMessage(items)[..|Header|] == Header
    ensures Split(OrderMessage(items)[|Header|..], '\n') == MapSeq(ItemLine, items)
  {
    var lines := MapSeq(ItemLine, items);
    forall i | 0 <= i < |lines|
      ensures '\n' !in lines[i]
    {
      NoNewlineInLine(items[i]);
    }
    SplitJoin(lines, '\n');
    assert OrderMessage(items)[|Header|..] == Join(lines, "\n");
  }

  lemma NoNewlineInLine(item: CartItem)
    requires '\n' !in item.herb.name
    ensures '\n' !in ItemLine(item)
  {
    var line := ItemLine(item);
    forall i | 0 <= i < |line|
      ensures line[i] != '\n'
    {
      if i >= 2 {
        assert line[i] == item.herb.name[i - 2];
      }
    }
  }

  /** Whoever opens the link can recover the order: decoding the text after
      the fixed prefix and splitting it into lines gives the greeting and
      every herb's line, in cart order, provided decoding undoes encoding. */
  lemma OrderUrlRoundTrip(items: seq<CartItem>, encode: string -> string, decode: string -> string)
    requires items != [] && NoNewline(items)
    requires forall s :: decode(encode(s)) == s
    ensures var text := decode(OrderUrl(items, encode)[|UrlPrefix|..]);
      |Header| <= |text| && text[..|Header|] == Header && Split(text[|Header|..], '\n') == MapSeq(ItemLine, items)
  {
    OrderMessageLines(items);
  }

  /** One row of the item list. */
  datatype Row = Row(name: string, form: string, removeId: string)

  /** The open drawer: its rows, whether it shows the empty-cart notice and
      whether it offers the order button. */
  datatype View = View(rows: seq<Row>, showsEmptyNotice: bool, offersOrder: bool)

  function RowOf(item: CartItem): Row {
    Row(item.herb.name, item.herb.form, item.id)
  }

  /** What the component renders: nothing when closed; otherwise one row per
      item whose remove button passes that item's own id, the empty notice
      for an empty cart, and the order footer only for a non-empty one. */
  function Render(isOpen: bool, items: seq<CartItem>): (v: Option<View>)
    ensures v.None? <==> !isOpen
    ensures v.Some? ==> |v.value.rows| == |items|
    ensures v.Some? ==> forall i :: 0 <= i < |items| ==>
      v.value.rows[i].removeId == items[i].id && v.value.rows[i].name == items[i].herb.name
    ensures v.Some? ==> (v.value.offersOrder <==> items != []) && (v.value.showsEmptyNotice <==> items == [])
  {
    if !isOpen then None
    else Some(View(MapSeq(RowOf, items), |items| == 0, |items| > 0))
  }
}
