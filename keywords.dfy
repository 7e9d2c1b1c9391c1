/** Keyword-driven replies, as both chat components write them: a chain of
    `if (msg.includes(a) || msg.includes(b) ...) return reply;` tests over the
    lower-cased message, ending in a fallback. A chain is a list of rules
    tried in order. */
module Keywords {
  import Text

  /** One `if` of the chain: its keywords and the reply it returns. */
  datatype Rule<R> = Rule(keywords: seq<string>, reply: R)

  /** `s.includes(k1) || s.includes(k2) || ...`. */
  predicate ContainsAny(s: string, keywords: seq<string>) {
    exists k | 0 <= k < |keywords| :: Text.Contains(s, keywords[k])
  }

  /** The chain: the reply of the first rule with a keyword in `s`, else the fallback. */
  function FirstMatch<R>(rules: seq<Rule<R>>, s: string, fallback: R): (r: R) {
    if rules == [] then fallback
    else if ContainsAny(s, rules[0].keywords) then rules[0].reply
    else FirstMatch(rules[1..], s, fallback)
  }

  /** Rule i is the first whose keywords occur in `s`. */
  predicate FirstMatching<R>(rules: seq<Rule<R>>, s: string, i: int) {
    && 0 <= i < |rules|
    && ContainsAny(s, rules[i].keywords)
    && forall j :: 0 <= j < i ==> !ContainsAny(s, rules[j].keywords)
  }

  predicate NoneMatching<R>(rules: seq<Rule<R>>, s: string) {
    forall j :: 0 <= j < |rules| ==> !ContainsAny(s, rules[j].keywords)
  }

  /** The chain answers with the first matching rule's reply, or with the
      fallback when no rule matches; exactly one of the two cases holds. */
  lemma {:induction false} FirstMatchSpec<R>(rules: seq<Rule<R>>, s: string, fallback: R)
    ensures NoneMatching(rules, s) ==> FirstMatch(rules, s, fallback) == fallback
    ensures forall i :: FirstMatching(rules, s, i) ==> FirstMatch(rules, s, fallback) == rules[i].reply
    ensures NoneMatching(rules, s) || exists i :: FirstMatching(rules, s, i)
  {
    if rules != [] {
      if ContainsAny(s, rules[0].keywords) {
        assert FirstMatching(rules, s, 0);
      } else {
        FirstMatchSpec(rules[1..], s, fallback);
        NoneMatchingShift(rules, s);
        forall i | FirstMatching(rules, s, i) ensures FirstMatch(rules, s, fallback) == rules[i].reply {
          FirstMatchingShift(rules, s, i);
        }
        if !NoneMatching(rules, s) {
          var i :| FirstMatching(rules[1..], s, i);
          FirstMatchingShift(rules, s, i + 1);
        }
      }
    }
  }

  /** Past a first rule that does not match, rule i is the first match of the
      chain exactly when rule i - 1 is the first match of the rest. */
  lemma FirstMatchingShift<R>(rules: seq<Rule<R>>, s: string, i: int)
    requires rules != [] && !ContainsAny(s, rules[0].keywords)
    ensures FirstMatching(rules, s, i) <==> FirstMatching(rules[1..], s, i - 1)
  {
    var rest := rules[1..];
    if FirstMatching(rules, s, i) {
      forall j | 0 <= j < i - 1 ensures !ContainsAny(s, rest[j].keywords) {
        assert rest[j] == rules[j + 1];
      }
    }
    if FirstMatching(rest, s, i - 1) {
      forall j | 0 <= j < i ensures !ContainsAny(s, rules[j].keywords) {
        if j > 0 {
          assert rules[j] == rest[j - 1];
        }
      }
    }
  }

  /** Past a first rule that does not match, nothing matches exactly when
      nothing in the rest matches. */
  lemma NoneMatchingShift<R>(rules: seq<Rule<R>>, s: string)
    requires rules != [] && !ContainsAny(s, rules[0].keywords)
    ensures NoneMatching(rules, s) <==> NoneMatching(rules[1..], s)
  {
    var rest := rules[1..];
    if NoneMatching(rest, s) {
      forall j | 0 <= j < |rules| ensures !ContainsAny(s, rules[j].keywords) {
        if j > 0 {
          assert rules[j] == rest[j - 1];
        }
      }
    }
  }

  /** Keyword `keywords[k]` of a rule occurs in `s`, so the rule matches. */
  lemma KeywordMatches(s: string, keywords: seq<string>, k: int)
    requires 0 <= k < |keywords| && Text.Contains(s, keywords[k])
    ensures ContainsAny(s, keywords)
  {
  }
}
