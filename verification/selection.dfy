/** The question-source policy of `getNextQuestion` in the interview
    utilities: decide whether the next question is mined from the resume
    digest or follows up on the previous answer, pick the category and item,
    and build the prompt for the chosen path.

    `Math.random()` is replaced by caller-supplied draws: the coin is the
    outcome of `Math.random() < 0.3`, and the two indices are the outcomes of
    `Math.floor(Math.random() * n)` for the eligible categories and for the
    items of the chosen category. */
module Selection {
  import opened Wrappers
  import opened Text
  import opened Json
  import opened Prompts

  /** A digest entry that can source a question: its key and its items. */
  datatype Category = Category(name: string, items: seq<Value>)

  /** `Array.isArray(val) && val.length` */
  predicate HasItems(v: Value) {
    v.JArr? && |v.items| > 0
  }

  /** The entry at position `i` is eligible and is category `c`. */
  predicate EntryIs(entries: Fields, i: int, c: Category) {
    0 <= i < |entries| && entries[i].0 == c.name && entries[i].1 == JArr(c.items) && |c.items| > 0
  }

  /** Category `c` is one of the eligible entries of the digest. */
  ghost predicate FromDigest(entries: Fields, c: Category) {
    exists i :: EntryIs(entries, i, c)
  }

  /** The eligible categories of a digest, in entry order. */
  function Eligible(entries: Fields): (cs: seq<Category>)
    ensures |cs| <= |entries|
    ensures forall k :: 0 <= k < |cs| ==> FromDigest(entries, cs[k])
    ensures forall k :: 0 <= k < |cs| ==> |cs[k].items| > 0
    ensures |cs| == 0 <==> forall i :: 0 <= i < |entries| ==> !HasItems(entries[i].1)
    // and every entry with items is listed
    ensures forall i :: 0 <= i < |entries| && HasItems(entries[i].1) ==>
              Category(entries[i].0, entries[i].1.items) in cs
  {
    if |entries| == 0 then []
    else
      var rest := Eligible(entries[1..]);
      assert forall k :: 0 <= k < |rest| ==> FromDigest(entries, rest[k]) by {
        forall k | 0 <= k < |rest| ensures FromDigest(entries, rest[k]) {
          assert FromDigest(entries[1..], rest[k]);
          var i :| EntryIs(entries[1..], i, rest[k]);
          assert entries[1..][i] == entries[i + 1];
          assert EntryIs(entries, i + 1, rest[k]);
        }
      }
      assert (forall i :: 0 <= i < |entries| ==> !HasItems(entries[i].1)) <==>
             !HasItems(entries[0].1) && (forall i :: 0 <= i < |entries[1..]| ==> !HasItems(entries[1..][i].1)) by {
        if forall i :: 0 <= i < |entries[1..]| ==> !HasItems(entries[1..][i].1) {
          forall i | 1 <= i < |entries| ensures !HasItems(entries[i].1) {
            assert entries[i] == entries[1..][i - 1];
          }
        }
      }
      assert forall i :: 1 <= i < |entries| ==> entries[i] == entries[1..][i - 1];
      if HasItems(entries[0].1) then
        var c := Category(entries[0].0, entries[0].1.items);
        assert EntryIs(entries, 0, c);
        var cs := [c] + rest;
        assert forall k :: 1 <= k < |cs| ==> cs[k] == rest[k - 1];
        cs
      else rest
  }

  /** The number of entries whose value is a non-empty array. */
  function CountWithItems(entries: Fields): nat {
    if |entries| == 0 then 0
    else CountWithItems(entries[..|entries| - 1]) + (if HasItems(entries[|entries| - 1].1) then 1 else 0)
  }

  lemma {:induction false} CountWithItemsCons(x: (string, Value), rest: Fields)
    ensures CountWithItems([x] + rest) == (if HasItems(x.1) then 1 else 0) + CountWithItems(rest)
    decreases |rest|
  {
    if |rest| > 0 {
      assert ([x] + rest)[..|rest|] == [x] + rest[..|rest| - 1];
      CountWithItemsCons(x, rest[..|rest| - 1]);
    }
  }

  /** `Eligible` is the in-order filter: there is one category per entry with
      items, and the entry at position `i` is the category whose index is the
      number of entries with items before `i`. */
  lemma {:induction false} EligibleInEntryOrder(entries: Fields)
    ensures |Eligible(entries)| == CountWithItems(entries)
    ensures forall i :: 0 <= i < |entries| && HasItems(entries[i].1) ==> EligibleAt(entries, i)
  {
    if |entries| > 0 {
      EligibleInEntryOrder(entries[1..]);
      EligibleCountStep(entries);
      forall i | 0 <= i < |entries| && HasItems(entries[i].1) ensures EligibleAt(entries, i) {
        if i > 0 {
          assert entries[1..][i - 1] == entries[i];
        }
        EligibleAtStep(entries, i);
      }
    }
  }

  lemma EligibleCountStep(entries: Fields)
    requires |entries| > 0
    requires |Eligible(entries[1..])| == CountWithItems(entries[1..])
    ensures |Eligible(entries)| == CountWithItems(entries)
  {
    assert entries == [entries[0]] + entries[1..];
    CountWithItemsCons(entries[0], entries[1..]);
  }

  /** Entry `i` is the category at rank "entries with items before `i`". */
  predicate EligibleAt(entries: Fields, i: int)
    requires 0 <= i < |entries| && HasItems(entries[i].1)
  {
    var rank := CountWithItems(entries[..i]);
    rank < |Eligible(entries)| && Eligible(entries)[rank] == Category(entries[i].0, entries[i].1.items)
  }

  lemma EligibleAtStep(entries: Fields, i: int)
    requires 0 <= i < |entries| && HasItems(entries[i].1)
    requires i > 0 ==> EligibleAt(entries[1..], i - 1)
    ensures EligibleAt(entries, i)
  {
    var rest := Eligible(entries[1..]);
    if i == 0 {
      assert entries[..0] == [];
    } else {
      assert entries[..i] == [entries[0]] + entries[1..][..i - 1];
      CountWithItemsCons(entries[0], entries[1..][..i - 1]);
      assert entries[i] == entries[1..][i - 1];
    }
  }

  /** The outcomes of the three `Math.random()` calls. Each index draw is an
      arbitrary natural number and the index used is its remainder modulo the
      length, which, like `Math.floor(Math.random() * n)`, can reach every
      position and never leaves the range. */
  datatype Draws = Draws(coin: bool, category: nat, item: nat)

  datatype Source = FromResume(category: string, item: Value) | FromConversation

  /** `!previousQuestion || historyLength >= 2 || Math.random() < 0.3` */
  predicate ShouldAskFromResume(previousQuestion: Option<string>, historyLength: int, coin: bool) {
    !Filled(previousQuestion) || historyLength >= 2 || coin
  }

  /** The category and item the draws pick among eligible categories. */
  function Pick(cs: seq<Category>, d: Draws): Source
    requires |cs| > 0 && forall k :: 0 <= k < |cs| ==> |cs[k].items| > 0
  {
    var c := cs[d.category % |cs|];
    FromResume(c.name, c.items[d.item % |c.items|])
  }

  /** The source of the next question. */
  function SelectSource(previousQuestion: Option<string>, historyLength: int, entries: Fields, d: Draws): (s: Source)
    // the resume is used exactly when the policy asks for it and some category has items
    ensures s.FromResume? <==>
              ShouldAskFromResume(previousQuestion, historyLength, d.coin) && |Eligible(entries)| > 0
    // the chosen category is an eligible entry and the item one of its elements
    ensures s.FromResume? ==> exists items :: FromDigest(entries, Category(s.category, items)) && s.item in items
    // with no previous question any non-empty digest sources the question
    ensures !Filled(previousQuestion) && (exists i :: 0 <= i < |entries| && HasItems(entries[i].1)) ==> s.FromResume?
    // after two or more turns, likewise
    ensures historyLength >= 2 && (exists i :: 0 <= i < |entries| && HasItems(entries[i].1)) ==> s.FromResume?
    // a previous question, a short history and a failed coin always follow up
    ensures Filled(previousQuestion) && historyLength < 2 && !d.coin ==> s == FromConversation
    // an empty digest always falls back to the follow-up path
    ensures (forall i :: 0 <= i < |entries| ==> !HasItems(entries[i].1)) ==> s == FromConversation
  {
    var cs := Eligible(entries);
    if ShouldAskFromResume(previousQuestion, historyLength, d.coin) && |cs| > 0 then
      var c := cs[d.category % |cs|];
      assert FromDigest(entries, Category(c.name, c.items));
      Pick(cs, d)
    else FromConversation
  }

  lemma ModSmall(a: nat, n: nat)
    requires a < n
    ensures a % n == a
  {
  }

  /** Every item of every eligible category is the question source for some
      outcome of the draws, whenever the policy asks from the resume. */
  lemma EveryItemReachable(previousQuestion: Option<string>, historyLength: int, entries: Fields,
                           coin: bool, k: nat, j: nat)
    requires ShouldAskFromResume(previousQuestion, historyLength, coin)
    requires k < |Eligible(entries)| && j < |Eligible(entries)[k].items|
    ensures SelectSource(previousQuestion, historyLength, entries, Draws(coin, k, j)) ==
            FromResume(Eligible(entries)[k].name, Eligible(entries)[k].items[j])
  {
    var cs := Eligible(entries);
    var d := Draws(coin, k, j);
    ModSmall(k, |cs|);
    ModSmall(j, |cs[k].items|);
    assert Pick(cs, d) == FromResume(cs[k].name, cs[k].items[j]);
    assert SelectSource(previousQuestion, historyLength, entries, d) == Pick(cs, d);
  }

  /** The prompt for the chosen source: the resume-question template with the
      item as a template literal renders it, or the follow-up template with
      the previous question and answer (`|| ''`). */
  function PromptFor(s: Source, previousQuestion: Option<string>, userAnswer: Option<string>,
                     role: string, level: string): Prompt
  {
    match s
    case FromResume(category, item) => ResumeQuestion(category, Display(item), role, level)
    case FromConversation => FollowUp(OrEmpty(previousQuestion), OrEmpty(userAnswer), role, level)
  }

  /** The prompt `getNextQuestion` sends. Exactly one of the two builders
      produces it, following the selected source, and it is never the empty
      string the function starts from. */
  function ChoosePrompt(previousQuestion: Option<string>, userAnswer: Option<string>, role: string,
                        level: string, entries: Fields, historyLength: int, d: Draws): (p: Prompt)
    ensures p.ResumeQuestion? <==> SelectSource(previousQuestion, historyLength, entries, d).FromResume?
    ensures p.ResumeQuestion? ==>
              var s := SelectSource(previousQuestion, historyLength, entries, d);
              p.category == s.category && p.item == Display(s.item)
    ensures p.ResumeQuestion? || p.FollowUp?
    ensures p.FollowUp? ==> p.previousQuestion == OrEmpty(previousQuestion) && p.answer == OrEmpty(userAnswer)
    ensures p.role == role && p.level == level
    ensures |Render(p)| > 0
  {
    PromptFor(SelectSource(previousQuestion, historyLength, entries, d), previousQuestion, userAnswer, role, level)
  }

  /** `getNextQuestion`: the parsed reply of the completion service to the
      chosen prompt; a transport or parse failure is thrown to the caller. */
  function GetNextQuestion(previousQuestion: Option<string>, userAnswer: Option<string>, role: string,
                           level: string, entries: Fields, historyLength: int, d: Draws,
                           llm: Prompt -> Reply, parse: string -> Option<Value>): Result<Value>
  {
    CompleteJson(llm, parse, ChoosePrompt(previousQuestion, userAnswer, role, level, entries, historyLength, d))
  }
}
