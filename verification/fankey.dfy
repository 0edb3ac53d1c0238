/**
 * A hand-written matcher for the fan-key regular expression of
 * internal/collector/hw_collector.go:
 *
 *   (?i)FAN_INFO\|(PSU\d+|Fantray\d+)(\s|\-)(.+)
 *
 * searched for anywhere in the key (leftmost match, leftmost-first
 * alternation, greedy repetition, `.` not matching a newline). The captured
 * slot (group 1) and name (group 3) keep the key's own case.
 */
module FanKey {
  import opened Base

  const Lead := "FAN_INFO|"
  const PsuWord := "PSU"
  const FantrayWord := "FANTRAY"

  /**
   * `c` matches the upper-case literal character `lit` under (?i): itself,
   * the ASCII lower-case letter, and U+017F (long s), which folds to 'S'.
   */
  predicate FoldsTo(c: char, lit: char)
  {
    || c == lit
    || ('A' <= lit <= 'Z' && c as int == lit as int + 32)
    || (lit == 'S' && c == '\U{017F}')
  }

  /** `t` spells `lit` case-insensitively, character by character. */
  predicate FoldEq(t: string, lit: string)
  {
    |t| == |lit| && forall k :: 0 <= k < |t| ==> FoldsTo(t[k], lit[k])
  }

  /** The literal `lit` occurs case-insensitively in `s` at position `i`. */
  predicate LiteralAt(s: string, i: nat, lit: string)
  {
    i + |lit| <= |s| && FoldEq(s[i..i + |lit|], lit)
  }

  /** `\d`: an ASCII digit. */
  predicate IsDigit(c: char) { '0' <= c <= '9' }

  /** `(\s|\-)`: Go's `\s` is tab, newline, form feed, carriage return or space. */
  predicate IsSeparator(c: char)
  {
    c == '\t' || c == '\n' || c == '\U{000C}' || c == '\r' || c == ' ' || c == '-'
  }

  /** Length of the longest run of digits starting at `i`. */
  function DigitRun(s: string, i: nat): (n: nat)
    requires i <= |s|
    ensures i + n <= |s|
    ensures forall k :: i <= k < i + n ==> IsDigit(s[k])
    ensures i + n == |s| || !IsDigit(s[i + n])
    decreases |s| - i
  {
    if i == |s| || !IsDigit(s[i]) then 0 else 1 + DigitRun(s, i + 1)
  }

  /** Length of the longest run of non-newline characters starting at `i`. */
  function LineRun(s: string, i: nat): (n: nat)
    requires i <= |s|
    ensures i + n <= |s|
    ensures forall k :: i <= k < i + n ==> s[k] != '\n'
    ensures i + n == |s| || s[i + n] == '\n'
    decreases |s| - i
  {
    if i == |s| || s[i] == '\n' then 0 else 1 + LineRun(s, i + 1)
  }

  /** Length of the slot word ("PSU" or "FANTRAY") at `j`, or 0 when neither is there. */
  function WordAt(s: string, j: nat): nat
  {
    if LiteralAt(s, j, PsuWord) then |PsuWord|
    else if LiteralAt(s, j, FantrayWord) then |FantrayWord|
    else 0
  }

  /** The engine's answer for a match starting exactly at `i`: (group 1, group 3). */
  function MatchAt(s: string, i: nat): Option<(string, string)>
    requires i <= |s|
  {
    if !LiteralAt(s, i, Lead) then None else MatchAfterLead(s, i + |Lead|)
  }

  /** The engine's answer for the part of the expression after the lead literal, from `j`. */
  function MatchAfterLead(s: string, j: nat): Option<(string, string)>
    requires j <= |s|
  {
    var w := WordAt(s, j);
    if w == 0 then None
    else
      var d := DigitRun(s, j + w);
      var k := j + w + d;
      if d == 0 || k == |s| || !IsSeparator(s[k]) then None
      else
        var n := LineRun(s, k + 1);
        if n == 0 then None else Some((s[j..k], s[k + 1..k + 1 + n]))
  }

  /** Every character of `t` is a digit. */
  predicate AllDigits(t: string)
  {
    forall k :: 0 <= k < |t| ==> IsDigit(t[k])
  }

  /** `PSU\d+|Fantray\d+`, read declaratively. */
  predicate IsSlotWord(slot: string)
  {
    || (|slot| > |PsuWord| && LiteralAt(slot, 0, PsuWord) && AllDigits(slot[|PsuWord|..]))
    || (|slot| > |FantrayWord| && LiteralAt(slot, 0, FantrayWord) && AllDigits(slot[|FantrayWord|..]))
  }

  /** `slot` reads as `PSU\d+|Fantray\d+` and occurs in `s` at `j`, followed by some character. */
  predicate SlotAt(s: string, j: nat, slot: string)
  {
    IsSlotWord(slot) && j + |slot| < |s| && s[j..j + |slot|] == slot
  }

  /**
   * `(.+)` matched greedily at `k`: `name` is a non-empty run of non-newline
   * characters of `s` starting at `k` that ends at a newline or at the end.
   */
  predicate NameAt(s: string, k: nat, name: string)
  {
    && 0 < |name| && k + |name| <= |s| && s[k..k + |name|] == name
    && (forall m :: 0 <= m < |name| ==> name[m] != '\n')
    && (k + |name| == |s| || s[k + |name|] == '\n')
  }

  /**
   * The regular expression matches at `i` capturing `slot` and `name`: the
   * lead literal, the slot word, one separator, then the longest non-empty
   * newline-free remainder (greedy `.+`).
   */
  predicate Matches(s: string, i: nat, slot: string, name: string)
  {
    LiteralAt(s, i, Lead) && MatchesAfterLead(s, i + |Lead|, slot, name)
  }

  /** The slot word, one separator and the greedy name, from `j`. */
  predicate MatchesAfterLead(s: string, j: nat, slot: string, name: string)
  {
    var k := j + |slot|;
    SlotAt(s, j, slot) && IsSeparator(s[k]) && NameAt(s, k + 1, name)
  }

  /** No character folds to both 'P' and 'F', so at most one slot word applies. */
  lemma WordsExclusive(s: string, j: nat)
    ensures !(LiteralAt(s, j, PsuWord) && LiteralAt(s, j, FantrayWord))
  {
    if LiteralAt(s, j, PsuWord) {
      assert FoldsTo(s[j], 'P') by { assert s[j..j + 3][0] == s[j]; }
      if j + 7 <= |s| {
        assert s[j..j + 7][0] == s[j];
      }
    }
  }

  /** The slot word found by WordAt, with the digit run after it, reads as `PSU\d+|Fantray\d+`. */
  lemma SlotSound(s: string, j: nat)
    requires j <= |s|
    requires WordAt(s, j) > 0 && DigitRun(s, j + WordAt(s, j)) > 0
    ensures IsSlotWord(s[j..j + WordAt(s, j) + DigitRun(s, j + WordAt(s, j))])
  {
    var w := WordAt(s, j);
    var d := DigitRun(s, j + w);
    var slot := s[j..j + w + d];
    var lit := if w == |PsuWord| then PsuWord else FantrayWord;
    assert LiteralAt(s, j, lit);
    LiteralUnshift(s, j, slot, lit);
    forall m | 0 <= m < d
      ensures IsDigit(slot[w..][m])
    {
      assert slot[w..][m] == s[j + w + m];
    }
    assert |slot| > |lit| && LiteralAt(slot, 0, lit) && AllDigits(slot[|lit|..]);
  }

  /** A literal in `s` at `j` is a literal at the start of any slice of `s` from `j` that covers it. */
  lemma LiteralUnshift(s: string, j: nat, t: string, lit: string)
    requires LiteralAt(s, j, lit)
    requires j + |t| <= |s| && t == s[j..j + |t|] && |lit| <= |t|
    ensures LiteralAt(t, 0, lit)
  {
    assert t[0..|lit|] == s[j..j + |lit|];
  }

  /** The longest newline-free run at `k`, when non-empty, is what `(.+)` captures. */
  lemma NameSound(s: string, k: nat)
    requires k <= |s| && LineRun(s, k) > 0
    ensures NameAt(s, k, s[k..k + LineRun(s, k)])
  {
    var n := LineRun(s, k);
    var name := s[k..k + n];
    forall m | 0 <= m < n
      ensures name[m] != '\n'
    {
      assert name[m] == s[k + m];
    }
  }

  /** Soundness after the lead literal. */
  lemma AfterLeadSound(s: string, j: nat)
    requires j <= |s|
    ensures MatchAfterLead(s, j).Some? ==>
      MatchesAfterLead(s, j, MatchAfterLead(s, j).value.0, MatchAfterLead(s, j).value.1)
  {
    if MatchAfterLead(s, j).Some? {
      var w := WordAt(s, j);
      var d := DigitRun(s, j + w);
      var k := j + w + d;
      var n := LineRun(s, k + 1);
      var slot, name := s[j..k], s[k + 1..k + 1 + n];
      assert MatchAfterLead(s, j) == Some((slot, name)) && IsSeparator(s[k]);
      SlotSound(s, j);
      assert j + |slot| == k && s[j..j + |slot|] == slot;
      NameSound(s, k + 1);
      AfterLeadParts(s, j, slot, name);
    }
  }

  /** The three parts after the lead literal make a match. */
  lemma AfterLeadParts(s: string, j: nat, slot: string, name: string)
    requires IsSlotWord(slot) && j + |slot| < |s| && s[j..j + |slot|] == slot
    requires IsSeparator(s[j + |slot|]) && NameAt(s, j + |slot| + 1, name)
    ensures MatchesAfterLead(s, j, slot, name)
  {
  }

  /** Soundness: whatever MatchAt reports is a match of the regular expression. */
  lemma MatchAtSound(s: string, i: nat)
    requires i <= |s|
    ensures MatchAt(s, i).Some? ==> Matches(s, i, MatchAt(s, i).value.0, MatchAt(s, i).value.1)
  {
    if MatchAt(s, i).Some? {
      AfterLeadSound(s, i + |Lead|);
    }
  }

  /** A literal at the start of a slice of `s` is a literal in `s` itself. */
  lemma LiteralShift(s: string, j: nat, t: string, lit: string)
    requires j + |t| <= |s| && t == s[j..j + |t|]
    requires |lit| <= |t| && LiteralAt(t, 0, lit)
    ensures LiteralAt(s, j, lit)
  {
    assert s[j..j + |lit|] == t[0..|lit|];
  }

  /** A slot word followed by a non-digit is exactly what WordAt and DigitRun measure. */
  lemma SlotComplete(s: string, j: nat, slot: string)
    requires SlotAt(s, j, slot)
    requires !IsDigit(s[j + |slot|])
    ensures WordAt(s, j) > 0
    ensures DigitRun(s, j + WordAt(s, j)) > 0
    ensures WordAt(s, j) + DigitRun(s, j + WordAt(s, j)) == |slot|
  {
    var k := j + |slot|;
    var psu := |slot| > |PsuWord| && LiteralAt(slot, 0, PsuWord) && AllDigits(slot[|PsuWord|..]);
    var w := if psu then |PsuWord| else |FantrayWord|;
    if psu {
      LiteralShift(s, j, slot, PsuWord);
    } else {
      LiteralShift(s, j, slot, FantrayWord);
      WordsExclusive(s, j);
    }
    assert WordAt(s, j) == w;
    assert AllDigits(slot[w..]);
    forall m | j + w <= m < k
      ensures IsDigit(s[m])
    {
      assert s[m] == slot[m - j] == slot[w..][m - j - w];
    }
    DigitRunExact(s, j + w, k);
  }

  /** A greedy `(.+)` capture is exactly the longest newline-free run. */
  lemma NameComplete(s: string, k: nat, name: string)
    requires NameAt(s, k, name)
    ensures LineRun(s, k) == |name|
  {
    forall m | k <= m < k + |name|
      ensures s[m] != '\n'
    {
      assert s[m] == name[m - k];
    }
    LineRunExact(s, k, k + |name|);
  }

  /** Completeness after the lead literal. */
  lemma AfterLeadComplete(s: string, j: nat, slot: string, name: string)
    requires j <= |s|
    requires MatchesAfterLead(s, j, slot, name)
    ensures MatchAfterLead(s, j) == Some((slot, name))
  {
    var k := j + |slot|;
    assert !IsDigit(s[k]);
    SlotComplete(s, j, slot);
    NameComplete(s, k + 1, name);
  }

  /** Completeness: a match of the regular expression at `i` is what MatchAt reports. */
  lemma MatchAtComplete(s: string, i: nat, slot: string, name: string)
    requires i <= |s|
    requires Matches(s, i, slot, name)
    ensures MatchAt(s, i) == Some((slot, name))
  {
    AfterLeadComplete(s, i + |Lead|, slot, name);
  }

  /** A digit run that ends at a non-digit is the longest one. */
  lemma {:induction false} DigitRunExact(s: string, i: nat, e: nat)
    requires i <= e < |s|
    requires forall m :: i <= m < e ==> IsDigit(s[m])
    requires !IsDigit(s[e])
    ensures DigitRun(s, i) == e - i
    decreases e - i
  {
    if i < e {
      DigitRunExact(s, i + 1, e);
    }
  }

  /** A newline-free run that ends at a newline or at the end is the longest one. */
  lemma {:induction false} LineRunExact(s: string, i: nat, e: nat)
    requires i <= e <= |s|
    requires forall m :: i <= m < e ==> s[m] != '\n'
    requires e == |s| || s[e] == '\n'
    ensures LineRun(s, i) == e - i
    decreases e - i
  {
    if i < e {
      LineRunExact(s, i + 1, e);
    }
  }

  /** The leftmost start at or after `i` where the expression matches, or `|s| + 1`. */
  function FirstMatch(s: string, i: nat): (p: nat)
    requires i <= |s|
    ensures i <= p <= |s| + 1
    ensures p <= |s| ==> MatchAt(s, p).Some?
    ensures forall q :: i <= q < p && q <= |s| ==> MatchAt(s, q).None?
    decreases |s| - i
  {
    if MatchAt(s, i).Some? then i
    else if i == |s| then |s| + 1
    else FirstMatch(s, i + 1)
  }

  /**
   * `FindStringSubmatch(key)` reduced to groups 1 and 3: the captures of the
   * leftmost match, or None when the key does not match anywhere.
   */
  function FanKeyMatch(s: string): (r: Option<(string, string)>)
    ensures r.Some? ==> exists p :: 0 <= p <= |s| && MatchAt(s, p) == r
    ensures r.None? <==> forall q :: 0 <= q <= |s| ==> MatchAt(s, q).None?
  {
    var p := FirstMatch(s, 0);
    if p <= |s| then MatchAt(s, p) else None
  }

  /** A match at `p` with none between `i` and `p` makes `p` the first match from `i`. */
  lemma {:induction false} FirstMatchAt(s: string, i: nat, p: nat)
    requires i <= p <= |s|
    requires MatchAt(s, p).Some?
    requires forall q :: i <= q < p ==> MatchAt(s, q).None?
    ensures FirstMatch(s, i) == p
    decreases p - i
  {
    if i < p {
      assert MatchAt(s, i).None?;
      FirstMatchAt(s, i + 1, p);
    }
  }

  /**
   * The leftmost-match reading: FanKeyMatch finds the captures of a match at
   * `p` exactly when the expression matches at `p` and nowhere before it.
   */
  lemma FanKeyMatchLeftmost(s: string, p: nat, slot: string, name: string)
    requires p <= |s|
    ensures (FanKeyMatch(s) == Some((slot, name)) && FirstMatch(s, 0) == p) <==>
      (Matches(s, p, slot, name) && forall q :: 0 <= q < p ==> MatchAt(s, q).None?)
  {
    if Matches(s, p, slot, name) && forall q :: 0 <= q < p ==> MatchAt(s, q).None? {
      MatchAtComplete(s, p, slot, name);
      FirstMatchAt(s, 0, p);
      assert FanKeyMatch(s) == MatchAt(s, p);
    }
    if FanKeyMatch(s) == Some((slot, name)) && FirstMatch(s, 0) == p {
      assert MatchAt(s, p) == Some((slot, name));
      MatchAtSound(s, p);
    }
  }

  /** The example of the key layout: `FAN_INFO|PSU1-Fan1` captures slot PSU1 and name Fan1. */
  lemma PsuFanExample()
    ensures FanKeyMatch("FAN_INFO|PSU1-Fan1") == Some(("PSU1", "Fan1"))
  {
    var s := "FAN_INFO|PSU1-Fan1";
    assert Matches(s, 0, "PSU1", "Fan1") by {
      assert LiteralAt(s, 0, Lead);
      assert LiteralAt("PSU1", 0, PsuWord);
      assert s[9..13] == "PSU1";
      assert s[14..18] == "Fan1";
    }
    MatchAtComplete(s, 0, "PSU1", "Fan1");
  }

  /** A fan tray key in lower case with a space separator keeps the key's case. */
  lemma FantrayExample()
    ensures FanKeyMatch("fan_info|fantray2 fan 3") == Some(("fantray2", "fan 3"))
  {
    var s := "fan_info|fantray2 fan 3";
    assert LiteralAt(s, 0, Lead) by {
      assert s[0..9] == "fan_info|";
      assert FoldEq("fan_info|", Lead);
    }
    assert SlotAt(s, 9, "fantray2") by {
      assert "fantray2"[0..7] == "fantray";
      assert FoldEq("fantray", FantrayWord);
      assert "fantray2"[7..] == "2";
      assert s[9..17] == "fantray2";
    }
    assert NameAt(s, 18, "fan 3") by {
      assert s[18..23] == "fan 3";
    }
    assert Matches(s, 0, "fantray2", "fan 3") by {
      assert MatchesAfterLead(s, 9, "fantray2", "fan 3") by {
        assert IsSeparator(s[17]);
      }
    }
    MatchAtComplete(s, 0, "fantray2", "fan 3");
  }

  /** A plain fan key has no slot word and does not match. */
  lemma PlainFanExample()
    ensures FanKeyMatch("FAN_INFO|fan1") == None
  {
    var s := "FAN_INFO|fan1";
    forall q | 0 <= q <= |s|
      ensures MatchAt(s, q).None?
    {
      if q == 0 {
        assert !LiteralAt(s, 9, PsuWord) by { assert !FoldsTo(s[9], 'P'); }
        assert !LiteralAt(s, 9, FantrayWord) by { assert !FoldsTo(s[12], 'T'); }
      } else {
        if q + |Lead| <= |s| {
          assert s[q..q + |Lead|][8] == s[q + 8] != '|';
        }
      }
    }
  }
}
