/** Access keys: random generation over `A-Z0-9`, formatting into groups
    of four joined by `-`, and validation of a 16-character key. */
module KeyValidation {
  import opened Common

  const KeyChars: string := "ABCDEFGHIJKLMNOPQRSTUVWXYZ0123456789"

  predicate IsKeyChar(c: char) {
    'A' <= c <= 'Z' || '0' <= c <= '9'
  }

  /** The key drawn from the random values: character `values[i] % 36`
      of the alphabet at position `i`. */
  function KeyOf(values: seq<nat>): (r: string)
    ensures |r| == |values|
    ensures forall i :: 0 <= i < |r| ==> IsKeyChar(r[i])
  {
    seq(|values|, i requires 0 <= i < |values| => KeyChars[values[i] % |KeyChars|])
  }

  /** `generateRandomKey`: the random source is the `values` it filled in. */
  method GenerateRandomKey(length: nat, values: seq<nat>) returns (result: string)
    requires |values| == length
    ensures result == KeyOf(values)
  {
    result := "";
    for i := 0 to length
      invariant result == KeyOf(values[..i])
    {
      result := result + [KeyChars[values[i] % |KeyChars|]];
    }
    assert values[..length] == values;
  }

  /** `key.replace(/-/g, "")`. */
  function Clean(key: string): (r: string)
    ensures '-' !in r
    ensures forall c :: c != '-' ==> (c in r <==> c in key)
  {
    RemoveAll(key, '-')
  }

  /** Groups of four characters joined by `-`; the last group holds the
      remaining one to four characters. */
  function Grouped(s: string): (r: string)
    ensures s == [] ==> r == []
    ensures |s| <= 4 ==> r == s
    decreases |s|
  {
    if |s| <= 4 then s else s[..4] + "-" + Grouped(s[4..])
  }

  /** `formatKey` as a value. */
  function FormatKeyOf(key: string): string {
    Grouped(Clean(key))
  }

  /** `formatKey`'s loop over the cleaned key, four characters a step. */
  method FormatKey(key: string) returns (formatted: string)
    ensures formatted == FormatKeyOf(key)
  {
    var clean := RemoveAll(key, '-');
    formatted := "";
    var i := 0;
    while i < |clean|
      invariant 0 <= i <= |clean| + 3
      invariant i < |clean| ==> formatted + Grouped(clean[i..]) == Grouped(clean)
      invariant i >= |clean| ==> formatted == Grouped(clean)
      decreases |clean| - i
    {
      var end := if i + 4 < |clean| then i + 4 else |clean|;
      formatted := formatted + clean[i..end];
      if i + 4 < |clean| {
        formatted := formatted + "-";
        assert clean[i..][..4] == clean[i..i + 4] && clean[i..][4..] == clean[i + 4..];
      } else {
        assert clean[i..end] == clean[i..];
      }
      i := i + 4;
    }
  }

  /** Removing the hyphens of a grouped hyphen-free text gives it back. */
  lemma {:induction false} GroupedClean(s: string)
    requires '-' !in s
    ensures Clean(Grouped(s)) == s
    decreases |s|
  {
    if |s| > 4 {
      GroupedClean(s[4..]);
      RemoveAllConcat(s[..4] + "-", Grouped(s[4..]), '-');
      RemoveAllConcat(s[..4], "-", '-');
      assert s[..4] + s[4..] == s;
    }
  }

  /** Removing the hyphens of a formatted key removes the hyphens of the
      key. */
  lemma FormatKeyClean(key: string)
    ensures Clean(FormatKeyOf(key)) == Clean(key)
  {
    GroupedClean(Clean(key));
  }

  /** Formatting a formatted key changes nothing. */
  lemma FormatKeyIdempotent(key: string)
    ensures FormatKeyOf(FormatKeyOf(key)) == FormatKeyOf(key)
  {
    FormatKeyClean(key);
  }

  /** The grouped text has no hyphen at either end and never two in a
      row: every hyphen sits between two characters of the key. */
  lemma {:induction false} GroupedShape(s: string)
    requires '-' !in s
    ensures |Grouped(s)| == |s| + (if s == [] then 0 else (|s| - 1) / 4)
    ensures s != [] ==> Grouped(s)[0] != '-' && Grouped(s)[|Grouped(s)| - 1] != '-'
    ensures forall k :: 0 <= k < |Grouped(s)| - 1 ==> !(Grouped(s)[k] == '-' && Grouped(s)[k + 1] == '-')
    decreases |s|
  {
    if |s| > 4 {
      GroupedShape(s[4..]);
      var g := s[..4] + "-" + Grouped(s[4..]);
      forall k | 0 <= k < |g| - 1 ensures !(g[k] == '-' && g[k + 1] == '-') {
        if k >= 5 {
          assert g[k] == Grouped(s[4..])[k - 5] && g[k + 1] == Grouped(s[4..])[k - 4];
        } else if k < 3 {
          assert g[k] == s[k];
        } else if k == 3 {
          assert g[k] == s[3];
        } else {
          assert g[k + 1] == Grouped(s[4..])[0];
        }
      }
    } else {
      forall k | 0 <= k < |s| - 1 ensures !(s[k] == '-' && s[k + 1] == '-') {
        assert s[k] in s;
      }
      if s != [] {
        assert s[0] in s && s[|s| - 1] in s;
      }
    }
  }

  /** A 16-character key is written `XXXX-XXXX-XXXX-XXXX`. */
  lemma SixteenGrouped(s: string)
    requires |s| == 16
    ensures Grouped(s) == s[..4] + "-" + s[4..8] + "-" + s[8..12] + "-" + s[12..]
    ensures |Grouped(s)| == 19
  {
    assert s[8..][..4] == s[8..12] && s[8..][4..] == s[12..];
    assert Grouped(s[8..]) == s[8..12] + "-" + s[12..];
    assert s[4..][..4] == s[4..8] && s[4..][4..] == s[8..];
    assert Grouped(s[4..]) == s[4..8] + "-" + s[8..12] + "-" + s[12..];
  }

  /** `isValidKey`: sixteen characters of `[A-Z0-9]` once the hyphens are
      removed. */
  predicate IsValidKey(key: string) {
    var clean := Clean(key);
    |clean| == 16 && clean != [] && forall i :: 0 <= i < |clean| ==> IsKeyChar(clean[i])
  }

  /** A generated 16-character key is valid once formatted. */
  lemma GeneratedKeyValid(values: seq<nat>)
    requires |values| == 16
    ensures IsValidKey(FormatKeyOf(KeyOf(values)))
  {
    var k := KeyOf(values);
    assert '-' !in k by {
      forall i | 0 <= i < |k| ensures k[i] != '-' {
        assert IsKeyChar(k[i]);
      }
    }
    FormatKeyClean(k);
    assert Clean(k) == k;
  }

  /** Validity depends on the key's characters only, not its hyphens. */
  lemma ValidIgnoresHyphens(key: string)
    ensures IsValidKey(FormatKeyOf(key)) <==> IsValidKey(key)
  {
    FormatKeyClean(key);
  }
}
