/** The transaction-hash test `/^0x([A-Fa-f0-9]{64})$/.test(result)`
    (index.js:75): the pattern is matched against String(result). */
module TxHash {
  import opened JsValues

  /** Number of hexadecimal digits after the `0x` prefix. */
  const HashDigits := 64

  predicate IsHexDigit(c: char) {
    ('0' <= c <= '9') || ('a' <= c <= 'f') || ('A' <= c <= 'F')
  }

  /** The language of the pattern, stated declaratively: the literal `0x`
      followed by exactly 64 hexadecimal digits and nothing else (`$`
      without the multiline flag anchors at the very end of the input). */
  ghost predicate IsTxHashString(s: string) {
    && |s| == 2 + HashDigits
    && s[0] == '0' && s[1] == 'x'
    && forall i :: 2 <= i < |s| ==> IsHexDigit(s[i])
  }

  /** `[A-Fa-f0-9]*$`: every remaining character is a hex digit. */
  predicate AllHex(s: string)
    decreases |s|
  {
    s == "" || (IsHexDigit(s[0]) && AllHex(s[1..]))
  }

  /** The matcher: `^`, the literals `0` and `x`, then hex digits up to the
      end, 64 of them (`{64}` with both anchors fixes the total length). */
  predicate MatchPattern(s: string) {
    |s| == 2 + HashDigits && s[0] == '0' && s[1] == 'x' && AllHex(s[2..])
  }

  lemma {:induction false} AllHexEvery(s: string)
    ensures AllHex(s) <==> forall i :: 0 <= i < |s| ==> IsHexDigit(s[i])
    decreases |s|
  {
    if s != "" {
      AllHexEvery(s[1..]);
      assert forall i :: 1 <= i < |s| ==> s[i] == s[1..][i - 1];
    }
  }

  /** The matcher accepts exactly the strings of the pattern's language. */
  lemma MatchPatternCorrect(s: string)
    ensures MatchPattern(s) <==> IsTxHashString(s)
  {
    if |s| >= 2 {
      AllHexEvery(s[2..]);
      assert forall i :: 2 <= i < |s| ==> s[i] == s[2..][i - 2];
    }
  }

  /** The hash check the dispatcher applies to a response's `result`. */
  predicate MatchesTxHash(v: Value) {
    MatchPattern(Stringify(v))
  }

  /** A string result is a transaction hash iff it is `0x` and 64 hex digits;
      results of the other primitive kinds and plain objects never are. */
  lemma MatchesTxHashByKind(v: Value)
    ensures v.Str? ==> (MatchesTxHash(v) <==> IsTxHashString(v.s))
    ensures (v.Undefined? || v.Null? || v.Bool? || v.Num? || v.Obj?) ==> !MatchesTxHash(v)
  {
    MatchPatternCorrect(Stringify(v));
    if v.Num? && |Stringify(v)| >= 2 {
      NumberHasNoX(v.n, 1);
    }
  }

  /** Whatever is recorded as a tracked hash is truthy, so the tracker's
      `!emitter.txHash` skip never fires on a recorded hash. */
  lemma MatchedIsTruthy(v: Value)
    requires MatchesTxHash(v)
    ensures Truthy(v)
  {
    MatchesTxHashByKind(v);
  }

  /** Concrete instances: a 66-character hash passes, a short or
      upper-case-prefixed one and a non-hash string do not. */
  lemma Examples()
    ensures MatchesTxHash(Str("0x" + "00000000000000000000000000000000" + "ABCDEFabcdef00000000000000000000"))
    ensures !MatchesTxHash(Str("0X" + "00000000000000000000000000000000" + "ABCDEFabcdef00000000000000000000"))
    ensures !MatchesTxHash(Str("0xabc"))
    ensures !MatchesTxHash(Str("not-a-hash"))
  {
    var good := "0x" + "00000000000000000000000000000000" + "ABCDEFabcdef00000000000000000000";
    MatchPatternCorrect(good);
    assert IsTxHashString(good);
  }
}
