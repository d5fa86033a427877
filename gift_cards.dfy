/** Gift cards attached to a cart item or to a whole order
    (`hasGiftValues` and `normalizeGift` of src/orders/orders.route.js). */
module GiftCards {
  import opened Wrappers
  import opened JsText

  /** A card as the client sends it: each of the four fields may be missing. */
  datatype GiftCard = GiftCard(from: Option<string>, to: Option<string>,
                               phone: Option<string>, note: Option<string>)

  /** `(x ?? "").toString()` for a field that is a string or missing. */
  function Text(f: Option<string>): string {
    f.GetOr("")
  }

  /** A card is there and at least one of its fields is not blank. */
  predicate HasGiftValues(gc: Option<GiftCard>) {
    match gc
    case None => false
    case Some(g) =>
      !IsBlank(Text(g.from)) || !IsBlank(Text(g.to)) ||
      !IsBlank(Text(g.phone)) || !IsBlank(Text(g.note))
  }

  /** The four-field card that gets stored: every field present. */
  predicate Complete(g: GiftCard) {
    g.from.Some? && g.to.Some? && g.phone.Some? && g.note.Some?
  }

  /** How a card may look wherever it is stored: absent, or complete and not all blank. */
  predicate Stored(gc: Option<GiftCard>) {
    gc.None? || (Complete(gc.value) && HasGiftValues(gc))
  }

  /** A present field is kept verbatim, a missing one becomes "". */
  predicate FilledFrom(f: Option<string>, r: Option<string>) {
    if f.Some? then r == f else r == Some("")
  }

  /** Collapses a blank card to absent and fills a card with values out to four fields. */
  function NormalizeGift(gc: Option<GiftCard>): (r: Option<GiftCard>)
    ensures r.None? <==> !HasGiftValues(gc)
    ensures r.Some? ==> Complete(r.value)
    ensures r.Some? ==>
      && FilledFrom(gc.value.from, r.value.from) && FilledFrom(gc.value.to, r.value.to)
      && FilledFrom(gc.value.phone, r.value.phone) && FilledFrom(gc.value.note, r.value.note)
  {
    if HasGiftValues(gc) then
      var g := gc.value;
      Some(GiftCard(Some(Text(g.from)), Some(Text(g.to)), Some(Text(g.phone)), Some(Text(g.note))))
    else
      None
  }

  /** `s` holds a character that is not white space. */
  predicate Visible(s: string) {
    exists i :: 0 <= i < |s| && !IsSpace(s[i])
  }

  /** A card has values exactly when one of its fields holds a visible character. */
  lemma HasGiftValuesIff(g: GiftCard)
    ensures HasGiftValues(Some(g)) <==>
      Visible(Text(g.from)) || Visible(Text(g.to)) || Visible(Text(g.phone)) || Visible(Text(g.note))
  {
    BlankIffAllSpace(Text(g.from));
    BlankIffAllSpace(Text(g.to));
    BlankIffAllSpace(Text(g.phone));
    BlankIffAllSpace(Text(g.note));
  }

  /** Normalizing yields a storable card, keeps whether the card has values, and is idempotent. */
  lemma NormalizeGiftStored(gc: Option<GiftCard>)
    ensures Stored(NormalizeGift(gc))
    ensures HasGiftValues(NormalizeGift(gc)) == HasGiftValues(gc)
    ensures NormalizeGift(NormalizeGift(gc)) == NormalizeGift(gc)
  {
  }

  /** A stored card is left as it is by normalizing it again. */
  lemma NormalizeStoredIsIdentity(gc: Option<GiftCard>)
    requires Stored(gc)
    ensures NormalizeGift(gc) == gc
  {
  }
}
