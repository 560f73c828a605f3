/**
 * The conversation router of `handle_message` (app.py:69-128): which of the
 * five branches answers a message, given whether the sender is new and the
 * stripped message text.
 */
module Router {
  import opened Text

  /** The branches of `handle_message`, one per reply. */
  datatype Rule = Greet | Gift | Activated | RosePath | Fallback

  /** The exact texts that ask for the gift, compared after lower-casing (app.py:89). */
  const GiftWords: seq<string> := ["receive gift", "\U{1F381}", "gift"]

  const Lightning: string := "\U{26A1}"
  const Rose: string := "\U{1F339}"

  /** The gift test: `text.lower() in ["receive gift", "🎁", "gift"]` (app.py:89). */
  predicate IsGiftText(t: string)
  {
    Lower(t) in GiftWords
  }

  /** The activation test: `"⚡" in text or "activated" in text.lower()` (app.py:101). */
  predicate IsActivatedText(t: string)
  {
    Contains(t, Lightning) || Contains(Lower(t), "activated")
  }

  /** The rose-path test: `"🌹" in text or "rose" in text.lower()` (app.py:112). */
  predicate IsRoseText(t: string)
  {
    Contains(t, Rose) || Contains(Lower(t), "rose")
  }

  /**
   * The branch `handle_message` takes for a sender who is new (`isNew`) or
   * known, on the already stripped text `t` (app.py:74-128).
   */
  function Route(isNew: bool, t: string): Rule
  {
    if isNew then Greet
    else if IsGiftText(t) then Gift
    else if IsActivatedText(t) then Activated
    else if IsRoseText(t) then RosePath
    else Fallback
  }

  /** The order in which the branches are tried, first to last. */
  function Priority(rule: Rule): nat
  {
    match rule
    case Greet => 0
    case Gift => 1
    case Activated => 2
    case RosePath => 3
    case Fallback => 4
  }

  /**
   * Each rule's own trigger, stated independently of the others and with
   * substring tests written as "some window equals the marker".
   */
  ghost predicate Matches(rule: Rule, isNew: bool, t: string)
  {
    match rule
    case Greet => isNew
    case Gift => !isNew && exists k :: 0 <= k < |GiftWords| && Lower(t) == GiftWords[k]
    case Activated => !isNew && ((exists i :: OccursAt(Lightning, t, i)) || (exists i :: OccursAt("activated", Lower(t), i)))
    case RosePath => !isNew && ((exists i :: OccursAt(Rose, t, i)) || (exists i :: OccursAt("rose", Lower(t), i)))
    case Fallback => !isNew
  }

  /** `Route` answers with the first rule, in priority order, whose trigger matches. */
  lemma RouteIsFirstMatch(isNew: bool, t: string)
    ensures Matches(Route(isNew, t), isNew, t)
    ensures forall q :: Matches(q, isNew, t) ==> Priority(Route(isNew, t)) <= Priority(q)
  {
    ContainsIffOccurs(t, Lightning);
    ContainsIffOccurs(Lower(t), "activated");
    ContainsIffOccurs(t, Rose);
    ContainsIffOccurs(Lower(t), "rose");
  }

  /** The first-match rule is determined: two rules that are both first-matching are the same rule. */
  lemma FirstMatchUnique(isNew: bool, t: string, r: Rule)
    requires Matches(r, isNew, t)
    requires forall q :: Matches(q, isNew, t) ==> Priority(r) <= Priority(q)
    ensures r == Route(isNew, t)
  {
    RouteIsFirstMatch(isNew, t);
  }

  /** A new sender is greeted whatever the text says, even a gift request. */
  lemma NewSenderGreeted(t: string)
    ensures Route(true, t) == Greet
    ensures Route(true, "gift") == Greet
  {
  }

  /**
   * No gift word contains an activation or rose marker, so for a known sender
   * the gift rule and the substring rules never compete for one text.
   */
  lemma GiftWordsCarryNoMarkers(t: string)
    requires IsGiftText(t)
    ensures !IsActivatedText(t) && !IsRoseText(t)
  {
    var w := Lower(t);
    LowerAt(t);
    assert w == "receive gift" || w == "\U{1F381}" || w == "gift";
    assert 'a' !in w && 'o' !in w && Lightning[0] !in w && Rose[0] !in w;
    NotContainsMissingChar(w, "activated", 'a');
    NotContainsMissingChar(w, "rose", 'o');
    assert Lightning[0] !in t && Rose[0] !in t by {
      forall i | 0 <= i < |t|
        ensures t[i] != Lightning[0] && t[i] != Rose[0]
      {
        assert w[i] == LowerChar(t[i]);
      }
    }
    NotContainsMissingChar(t, Lightning, Lightning[0]);
    NotContainsMissingChar(t, Rose, Rose[0]);
  }

  /** Upper- or mixed-case gift requests are gift requests. */
  lemma GiftExamples(t: string)
    requires t == "GIFT" || t == "Receive Gift" || t == "\U{1F381}"
    ensures Route(false, t) == Gift
  {
    LowerAt(t);
    assert Lower(t) == "gift" || Lower(t) == "receive gift" || Lower(t) == "\U{1F381}";
  }

  /** Membership is exact: a gift word followed by more text is not a gift request. */
  lemma GiftPleaseFallsBack(t: string)
    requires t == "gift please"
    ensures Route(false, t) == Fallback
  {
    var w := Lower(t);
    assert !IsGiftText(t) by {
      assert |w| == 11;
      assert forall k :: 0 <= k < |GiftWords| ==> |GiftWords[k]| != 11;
    }
    assert !IsActivatedText(t) && !IsRoseText(t) by {
      LowerAt(t);
      assert Lightning[0] !in t && Rose[0] !in t;
      assert 'c' !in w && 'o' !in w;
      NotContainsMissingChar(t, Lightning, Lightning[0]);
      NotContainsMissingChar(t, Rose, Rose[0]);
      NotContainsMissingChar(w, "activated", 'c');
      NotContainsMissingChar(w, "rose", 'o');
    }
  }

  /** Activation is tried before the rose path: "activated rose" is an activation. */
  lemma ActivatedBeatsRose(t: string)
    requires t == "activated rose"
    ensures IsRoseText(t)
    ensures Route(false, t) == Activated
  {
    LowerKeepsLowercase(t);
    assert t[0..9] == "activated";
    ContainsAt(t, "activated", 0);
    assert t[10..14] == "rose";
    ContainsAt(t, "rose", 10);
  }

  /** The rose test is a substring test: "prose" takes the rose path. */
  lemma ProseIsRose(t: string)
    requires t == "prose"
    ensures Route(false, t) == RosePath
  {
    LowerKeepsLowercase(t);
    assert Lightning[0] !in t;
    NotContainsMissingChar(t, Lightning, Lightning[0]);
    NotContainsMissingChar(t, "activated", 'a');
    assert t[1..5] == "rose";
    ContainsAt(t, "rose", 1);
  }

  /** The rose emoji alone, as sent, takes the rose path. */
  lemma RoseEmojiIsRose(t: string)
    requires t == Rose
    ensures Strip(t) == t && Route(false, Strip(t)) == RosePath
  {
    StripKeepsTrimmed(t);
    LowerKeepsLowercase(t);
    assert !IsGiftText(t);
    NotContainsMissingChar(t, Lightning, Lightning[0]);
    NotContainsMissingChar(Lower(t), "activated", 'a');
    ContainsAt(t, Rose, 0);
  }
}
