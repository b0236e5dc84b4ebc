/** Ordered keyword rules evaluated first-match-wins: the data-driven form of
    the if-cascades in the router and the icon classifier. */
module Rules {
  import opened Text

  /** One line of a cascade. It fires when the numeric id is one of `ids`, or
      when the text contains every keyword of at least one clause of `anyOf`. */
  datatype Rule<T> = Rule(ids: seq<int>, anyOf: seq<seq<string>>, target: T)

  predicate AllContained(text: string, words: seq<string>) {
    forall j | 0 <= j < |words| :: Contains(text, words[j])
  }

  predicate Fires<T>(r: Rule<T>, id: int, text: string) {
    id in r.ids || exists k | 0 <= k < |r.anyOf| :: AllContained(text, r.anyOf[k])
  }

  /** A clause of one or two keywords holds when the text contains each of them. */
  predicate ClauseHolds(text: string, clause: seq<string>) {
    |clause| > 0 && Contains(text, clause[0]) && (|clause| > 1 ==> Contains(text, clause[1]))
  }

  predicate SmallClause(clause: seq<string>) {
    1 <= |clause| <= 2
  }

  /** `Fires` written out clause by clause, for tables of at most four clauses
      of at most two keywords each (all the cascades here are of that shape). */
  lemma FiresUnfolded<T>(r: Rule<T>, id: int, text: string)
    requires |r.anyOf| <= 4 && forall k | 0 <= k < |r.anyOf| :: SmallClause(r.anyOf[k])
    ensures Fires(r, id, text) <==>
      || id in r.ids
      || (|r.anyOf| > 0 && ClauseHolds(text, r.anyOf[0]))
      || (|r.anyOf| > 1 && ClauseHolds(text, r.anyOf[1]))
      || (|r.anyOf| > 2 && ClauseHolds(text, r.anyOf[2]))
      || (|r.anyOf| > 3 && ClauseHolds(text, r.anyOf[3]))
  {
    forall k | 0 <= k < |r.anyOf|
      ensures AllContained(text, r.anyOf[k]) <==> ClauseHolds(text, r.anyOf[k])
    {
      var c := r.anyOf[k];
      assert SmallClause(c);
      if ClauseHolds(text, c) {
        forall j | 0 <= j < |c| ensures Contains(text, c[j]) {
          if j == 1 { assert |c| == 2; }
        }
      }
    }
  }

  /** The index of the first rule that fires, or `|rules|` when none does. */
  function FirstFiring<T>(rules: seq<Rule<T>>, id: int, text: string): (k: nat)
    ensures k <= |rules|
    ensures k < |rules| ==> Fires(rules[k], id, text)
    ensures forall j | 0 <= j < k :: !Fires(rules[j], id, text)
  {
    if rules == [] then 0
    else if Fires(rules[0], id, text) then 0
    else 1 + FirstFiring(rules[1..], id, text)
  }

  /** The target of the first rule that fires, or `default`. */
  function Select<T>(rules: seq<Rule<T>>, id: int, text: string, default: T): T {
    var k := FirstFiring(rules, id, text);
    if k < |rules| then rules[k].target else default
  }

  /** The three properties of `FirstFiring` determine it: an index at which a
      rule fires and before which none does is the one it returns. */
  lemma FirstFiringUnique<T>(rules: seq<Rule<T>>, id: int, text: string, k: nat)
    requires k <= |rules|
    requires k < |rules| ==> Fires(rules[k], id, text)
    requires forall j | 0 <= j < k :: !Fires(rules[j], id, text)
    ensures FirstFiring(rules, id, text) == k
  {
  }

  /** When no rule fires, `FirstFiring` runs off the end and the default is
      selected. */
  lemma NoneFires<T>(rules: seq<Rule<T>>, id: int, text: string, default: T)
    requires forall k | 0 <= k < |rules| :: !Fires(rules[k], id, text)
    ensures FirstFiring(rules, id, text) == |rules|
    ensures Select(rules, id, text, default) == default
  {
  }
}
