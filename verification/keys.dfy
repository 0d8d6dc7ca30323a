/** The second access-key helper: the same generator, a formatter that
    only touches keys of exactly sixteen characters, and `cleanKey`. */
module Keys {
  import opened Common
  import KeyValidation

  /** `generateRandomKey`, with the 32-bit random values as a parameter. */
  method GenerateRandomKey(length: nat, values: seq<nat>) returns (result: string)
    requires |values| == length
    ensures result == KeyValidation.KeyOf(values)
  {
    result := "";
    for i := 0 to length
      invariant result == KeyValidation.KeyOf(values[..i])
    {
      result := result + [KeyValidation.KeyChars[values[i] % |KeyValidation.KeyChars|]];
    }
    assert values[..length] == values;
  }

  /** `chunks.join("-")`. */
  function Join(chunks: seq<string>): string {
    if chunks == [] then ""
    else if |chunks| == 1 then chunks[0]
    else Join(chunks[..|chunks| - 1]) + "-" + chunks[|chunks| - 1]
  }

  /** `formatKey` as a value. */
  function FormatKeyOf(key: string): (r: string)
    ensures |key| != 16 ==> r == key
    ensures |key| == 16 ==> |r| == 19
  {
    if |key| != 16 then key else key[..4] + "-" + key[4..8] + "-" + key[8..12] + "-" + key[12..]
  }

  /** `formatKey`: a 16-character key is cut into four chunks that are
      joined with `-`; any other key comes back as it is. */
  method FormatKey(key: string) returns (r: string)
    ensures r == FormatKeyOf(key)
  {
    if |key| != 16 {
      return key;
    }
    var chunks: seq<string> := [];
    var i := 0;
    while i < |key|
      invariant 0 <= i <= 16 && i % 4 == 0 && |chunks| == i / 4
      invariant forall j :: 0 <= j < |chunks| ==> chunks[j] == key[4 * j..4 * j + 4]
      decreases 16 - i
    {
      chunks := chunks + [key[i..i + 4]];
      i := i + 4;
    }
    assert chunks[0] == key[..4] && chunks[1] == key[4..8] && chunks[2] == key[8..12] && chunks[3] == key[12..];
    assert Join(chunks[..1]) == key[..4];
    assert chunks[..2][..1] == chunks[..1] && chunks[..3][..2] == chunks[..2] && chunks[..4] == chunks;
    assert Join(chunks[..2]) == key[..4] + "-" + key[4..8];
    assert Join(chunks[..3]) == key[..4] + "-" + key[4..8] + "-" + key[8..12];
    r := Join(chunks);
  }

  /** `cleanKey`: every `-` removed. */
  function CleanKey(formattedKey: string): (r: string)
    ensures '-' !in r
    ensures forall c :: c != '-' ==> (c in r <==> c in formattedKey)
  {
    RemoveAll(formattedKey, '-')
  }

  /** Cleaning a formatted hyphen-free key gives it back. */
  lemma CleanFormatted(key: string)
    requires '-' !in key
    ensures CleanKey(FormatKeyOf(key)) == key
  {
    if |key| == 16 {
      KeyValidation.SixteenGrouped(key);
      KeyValidation.GroupedClean(key);
    }
  }

  /** A formatted key has 19 characters, so formatting it again leaves it
      as it is. */
  lemma FormatKeyIdempotent(key: string)
    ensures FormatKeyOf(FormatKeyOf(key)) == FormatKeyOf(key)
  {
  }

  /** On a hyphen-free 16-character key both formatters agree. */
  lemma AgreesWithKeyValidation(key: string)
    requires |key| == 16 && '-' !in key
    ensures FormatKeyOf(key) == KeyValidation.FormatKeyOf(key)
  {
    KeyValidation.SixteenGrouped(key);
  }
}
