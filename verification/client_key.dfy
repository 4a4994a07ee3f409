/**
 * Derivation of the rate-limit key from the `x-forwarded-for` request header:
 * the first comma-separated entry, untrimmed, or the sentinel "unknown".
 */
module ClientKey {
  import opened Wrappers

  /** The key used when the header is absent or empty. */
  const UnknownClient: string := "unknown"

  /** `p` is the text of `s` up to (not including) its first comma. */
  predicate IsFirstSegment(p: string, s: string) {
    && |p| <= |s|
    && p == s[..|p|]
    && ',' !in p
    && (|p| == |s| || s[|p|] == ',')
  }

  /** `s.split(",")[0]`: everything before the first comma, or all of `s` when it has none. */
  function FirstSegment(s: string): (p: string)
    ensures IsFirstSegment(p, s)
  {
    if s == [] || s[0] == ',' then []
    else [s[0]] + FirstSegment(s[1..])
  }

  /** The first segment is the only prefix that stops at the first comma or at the end. */
  lemma {:induction false} FirstSegmentUnique(p: string, s: string)
    requires IsFirstSegment(p, s)
    ensures p == FirstSegment(s)
  {
    if s == [] {
    } else if s[0] == ',' {
    } else {
      assert |p| > 0 by {
        if |p| == 0 {
          assert s[|p|] == ',';
        }
      }
      var q := p[1..];
      assert q == s[1..][..|q|];
      assert ',' !in q by {
        forall i | 0 <= i < |q| ensures q[i] != ',' {
          assert q[i] == p[i + 1];
        }
      }
      assert |q| == |s[1..]| || s[1..][|q|] == ',';
      FirstSegmentUnique(q, s[1..]);
      assert p == [s[0]] + q;
    }
  }

  /** getRateLimitKey: the header's first entry, or "unknown" when the header is absent or empty. */
  function RateLimitKey(forwardedFor: Option<string>): (key: string)
    ensures forwardedFor.None? || forwardedFor.value == "" ==> key == UnknownClient
    ensures forwardedFor.Some? && forwardedFor.value != "" ==> IsFirstSegment(key, forwardedFor.value)
  {
    match forwardedFor
    case None => UnknownClient
    case Some(header) => if header == "" then UnknownClient else FirstSegment(header)
  }

  /** A header with a single entry (no comma) is used verbatim, spaces included. */
  lemma SingleEntryIsKey(header: string)
    requires header != "" && ',' !in header
    ensures RateLimitKey(Some(header)) == header
  {
    FirstSegmentUnique(header, header);
  }

  /**
   * Whatever follows the first comma never influences the key. With an empty
   * `first` this is the header that starts with a comma, whose key is "".
   */
  lemma {:induction false} LaterEntriesIgnored(first: string, rest: string)
    requires ',' !in first
    ensures RateLimitKey(Some(first + "," + rest)) == first
  {
    var s := first + "," + rest;
    assert s[..|first|] == first;
    assert s[|first|] == ',';
    FirstSegmentUnique(first, s);
  }
}
