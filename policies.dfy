/** PoliciesExtractor.extract (scraper/src/extractors/policies.py): every
    policy text of a room goes to one bucket, tried in the order cancellation,
    check-in, check-out, and otherwise the special conditions. */
module Policies {
  import opened Wrappers
  import opened PyStr
  import opened Seqs
  import opened Dom
  import opened Retry

  const POLICY_SELECTOR := ".BZag-freebie, .lUp8 .BNDX"

  /** The `policies` dict. */
  datatype Policies = Policies(
    cancellation: Option<string>,
    checkin: Option<string>,
    checkout: Option<string>,
    specialConditions: seq<string>)

  const NoPolicies := Policies(None, None, None, [])

  datatype Bucket = Cancellation | CheckIn | CheckOut | Special

  /** The bucket of a stripped policy text, by case-insensitive substring, the
      first keyword that matches winning. */
  function Classify(text: string): (b: Bucket)
    ensures b == Cancellation <==> Contains(Lower(text), "cancellation")
    ensures b == CheckIn <==> !Contains(Lower(text), "cancellation") && Contains(Lower(text), "check-in")
    ensures b == CheckOut <==>
      !Contains(Lower(text), "cancellation") && !Contains(Lower(text), "check-in") &&
      Contains(Lower(text), "check-out")
  {
    var low := Lower(text);
    if Contains(low, "cancellation") then Cancellation
    else if Contains(low, "check-in") then CheckIn
    else if Contains(low, "check-out") then CheckOut
    else Special
  }

  /** One loop step on a text that was read. */
  function File(p: Policies, text: string): Policies {
    match Classify(text)
    case Cancellation => p.(cancellation := Some(text))
    case CheckIn => p.(checkin := Some(text))
    case CheckOut => p.(checkout := Some(text))
    case Special => p.(specialConditions := p.specialConditions + [text])
  }

  /** The dict after the loop has run over `items`; a stale item is skipped. */
  function PoliciesOf(items: seq<Item>): Policies {
    if items == [] then NoPolicies
    else
      var p := PoliciesOf(items[..|items| - 1]);
      match StrippedText(items[|items| - 1])
      case None => p
      case Some(t) => File(p, t)
  }

  /** PoliciesExtractor.extract: a room that raises while its policy elements
      are looked up leaves the default dict. */
  function Extract(room: Item): Policies {
    match WaitForElements(room, POLICY_SELECTOR)
    case Raise(_) => NoPolicies
    case Ok(items) => PoliciesOf(items)
  }

  /** PoliciesExtractor.extract. */
  method ExtractPolicies(room: Item) returns (p: Policies)
    ensures p == Extract(room)
  {
    var found := WaitForElements(room, POLICY_SELECTOR);
    if found.Raise? {
      return NoPolicies;
    }
    p := FileAll(found.value);
  }

  /** The loop over the policy elements, which skips a stale element. */
  method FileAll(items: seq<Item>) returns (p: Policies)
    ensures p == PoliciesOf(items)
  {
    p := NoPolicies;
    var i := 0;
    while i < |items|
      invariant 0 <= i <= |items|
      invariant p == PoliciesOf(items[..i])
    {
      assert items[..i + 1][..i] == items[..i];
      var read := Text(items[i]);
      if read.Ok? {
        p := FilePolicy(p, Strip(read.value));
      }
      i := i + 1;
    }
    assert items[..i] == items;
  }

  /** The `if`/`elif` chain for one policy text. */
  method FilePolicy(p: Policies, text: string) returns (q: Policies)
    ensures q == File(p, text)
  {
    var low := Lower(text);
    if Contains(low, "cancellation") {
      q := p.(cancellation := Some(text));
    } else if Contains(low, "check-in") {
      q := p.(checkin := Some(text));
    } else if Contains(low, "check-out") {
      q := p.(checkout := Some(text));
    } else {
      q := p.(specialConditions := p.specialConditions + [text]);
    }
  }

  predicate IsCancellation(t: string) { Classify(t) == Cancellation }
  predicate IsCheckIn(t: string) { Classify(t) == CheckIn }
  predicate IsCheckOut(t: string) { Classify(t) == CheckOut }

  function SpecialOnly(t: string): Option<string> {
    if Classify(t) == Special then Some(t) else None
  }

  /** Each keyed bucket holds the last attached text of its kind, and the
      special conditions hold, in element order, every attached text that
      matched no keyword (empty strings included). */
  lemma {:induction false} PoliciesOfSpec(items: seq<Item>)
    ensures PoliciesOf(items).cancellation == LastMatch(LiveTexts(items), IsCancellation)
    ensures PoliciesOf(items).checkin == LastMatch(LiveTexts(items), IsCheckIn)
    ensures PoliciesOf(items).checkout == LastMatch(LiveTexts(items), IsCheckOut)
    ensures PoliciesOf(items).specialConditions == FilterMap(LiveTexts(items), SpecialOnly)
  {
    if items != [] {
      var init, x := items[..|items| - 1], items[|items| - 1];
      assert items == init + [x];
      PoliciesOfSpec(init);
      PoliciesOfStep(init, x);
      assert Tracks(PoliciesOf(items), LiveTexts(items));
    }
  }

  /** The four buckets are what the loop over `texts` leaves. */
  predicate Tracks(p: Policies, texts: seq<string>) {
    && p.cancellation == LastMatch(texts, IsCancellation)
    && p.checkin == LastMatch(texts, IsCheckIn)
    && p.checkout == LastMatch(texts, IsCheckOut)
    && p.specialConditions == FilterMap(texts, SpecialOnly)
  }

  /** One more element keeps the four buckets in step with the texts. */
  lemma PoliciesOfStep(init: seq<Item>, x: Item)
    requires Tracks(PoliciesOf(init), LiveTexts(init))
    ensures Tracks(PoliciesOf(init + [x]), LiveTexts(init + [x]))
  {
    PoliciesOfSnoc(init, x);
    if x.Live? {
      LiveTextsSnoc(init, x.elem);
      FileTracks(PoliciesOf(init), LiveTexts(init), Strip(x.elem.text));
    } else {
      LiveTextsSnocStale(init);
    }
  }

  /** Filing one more text keeps the buckets in step. */
  lemma FileTracks(p: Policies, s: seq<string>, t: string)
    requires Tracks(p, s)
    ensures Tracks(File(p, t), s + [t])
  {
    LastMatchSnoc(s, t, IsCancellation);
    LastMatchSnoc(s, t, IsCheckIn);
    LastMatchSnoc(s, t, IsCheckOut);
    FilterMapSnoc(s, t, SpecialOnly);
  }

  lemma PoliciesOfSnoc(init: seq<Item>, x: Item)
    ensures PoliciesOf(init + [x]) ==
      match StrippedText(x)
      case None => PoliciesOf(init)
      case Some(t) => File(PoliciesOf(init), t)
  {
    assert (init + [x])[..|init|] == init;
  }

  /** Every attached text lands in exactly one bucket: a text of a keyed
      kind leaves that key set to a text of the same kind, and a text of no
      kind is among the special conditions. Conversely each bucket holds only
      attached texts of its own kind. */
  lemma OneBucketEach(items: seq<Item>)
    ensures var texts, p := LiveTexts(items), PoliciesOf(items);
      forall i | 0 <= i < |texts| ::
        && (IsCancellation(texts[i]) ==> p.cancellation.Some? && IsCancellation(p.cancellation.value))
        && (IsCheckIn(texts[i]) ==> p.checkin.Some? && IsCheckIn(p.checkin.value))
        && (IsCheckOut(texts[i]) ==> p.checkout.Some? && IsCheckOut(p.checkout.value))
        && (Classify(texts[i]) == Special ==> texts[i] in p.specialConditions)
    ensures var texts, p := LiveTexts(items), PoliciesOf(items);
      && (p.cancellation.Some? ==> p.cancellation.value in texts && IsCancellation(p.cancellation.value))
      && (p.checkin.Some? ==> p.checkin.value in texts && IsCheckIn(p.checkin.value))
      && (p.checkout.Some? ==> p.checkout.value in texts && IsCheckOut(p.checkout.value))
      && forall t | t in p.specialConditions :: t in texts && Classify(t) == Special
  {
    var texts, p := LiveTexts(items), PoliciesOf(items);
    PoliciesOfSpec(items);
    LastMatchSpec(texts, IsCancellation);
    LastMatchSpec(texts, IsCheckIn);
    LastMatchSpec(texts, IsCheckOut);
    forall i | 0 <= i < |texts| && Classify(texts[i]) == Special
      ensures texts[i] in p.specialConditions
    {
      FilterMapMembers(texts, SpecialOnly, texts[i]);
    }
    forall t | t in p.specialConditions ensures t in texts && Classify(t) == Special {
      FilterMapMembers(texts, SpecialOnly, t);
    }
  }

  /** A text mentioning both cancellation and check-in sets only cancellation. */
  lemma CancellationBeatsCheckIn(e: Elem)
    requires Contains(Lower(Strip(e.text)), "cancellation")
    requires Contains(Lower(Strip(e.text)), "check-in")
    ensures PoliciesOf([Live(e)]) == NoPolicies.(cancellation := Some(Strip(e.text)))
  {
    assert [Live(e)][..0] == [];
  }

  /** A stale element changes no bucket. */
  lemma StaleSkipped(items: seq<Item>)
    ensures PoliciesOf(items + [Detached]) == PoliciesOf(items)
  {
    assert (items + [Detached])[..|items|] == items;
  }

  /** No policy elements: three None fields and no special conditions. */
  lemma NoElements(room: Elem)
    requires POLICY_SELECTOR !in room.many
    ensures Extract(Live(room)) == Policies(None, None, None, [])
  {
  }
}
