/** The access-code field's read-out: the typed code with a `-` after
    every four characters, or a prompt while nothing is typed. */
module InputOtpControl {
  import opened Common
  import KeyValidation

  /** `val.replace(/(.{4})/g, "$1-")`: the global search tries each
      position in turn; where four characters without a line terminator
      follow, it appends them and a `-` and resumes after them, otherwise
      it copies one character and tries the next position. */
  function DashEveryFour(s: string): (r: string)
    ensures |r| >= |s|
    decreases |s|
  {
    if |s| < 4 then s
    else if forall k :: 0 <= k < 4 ==> !IsLineTerminator(s[k]) then s[..4] + "-" + DashEveryFour(s[4..])
    else [s[0]] + DashEveryFour(s[1..])
  }

  /** `.replace(/-$/, "")`: one `-` at the very end is dropped. */
  function DropTrailingDash(s: string): (r: string)
    ensures |r| <= |s|
  {
    if s != [] && s[|s| - 1] == '-' then s[..|s| - 1] else s
  }

  function FormatValue(val: string): string {
    DropTrailingDash(DashEveryFour(val))
  }

  /** A text with no line terminator. */
  predicate SingleLine(s: string) {
    forall k :: 0 <= k < |s| ==> !IsLineTerminator(s[k])
  }

  /** Only dashes are inserted: removing them gives the hyphen-free input
      back. */
  lemma {:induction false} DashEveryFourClean(s: string)
    requires '-' !in s
    ensures RemoveAll(DashEveryFour(s), '-') == s
    decreases |s|
  {
    if |s| >= 4 {
      if forall k :: 0 <= k < 4 ==> !IsLineTerminator(s[k]) {
        DashEveryFourClean(s[4..]);
        RemoveAllConcat(s[..4] + "-", DashEveryFour(s[4..]), '-');
        RemoveAllConcat(s[..4], "-", '-');
        assert s[..4] + s[4..] == s;
      } else {
        DashEveryFourClean(s[1..]);
        RemoveAllConcat([s[0]], DashEveryFour(s[1..]), '-');
        assert [s[0]] + s[1..] == s;
      }
    }
  }

  /** After the first replace a hyphen-free input ends with at most one
      `-`, right after a character of the input. */
  lemma {:induction false} DashEveryFourEnd(s: string)
    requires '-' !in s
    ensures DashEveryFour(s) == [] <==> s == []
    ensures |DashEveryFour(s)| >= 2 && DashEveryFour(s)[|DashEveryFour(s)| - 1] == '-' ==>
              DashEveryFour(s)[|DashEveryFour(s)| - 2] != '-'
    decreases |s|
  {
    if |s| < 4 {
      if |s| >= 2 {
        assert s[|s| - 2] in s;
      }
    } else if forall k :: 0 <= k < 4 ==> !IsLineTerminator(s[k]) {
      DashEveryFourEnd(s[4..]);
      var t := DashEveryFour(s[4..]);
      var r := s[..4] + "-" + t;
      if t == [] {
        assert r[|r| - 2] == s[3];
        assert s[3] in s;
      } else if |t| == 1 {
        assert r[|r| - 2] == '-';
        assert r[|r| - 1] == t[0];
        assert t[0] != '-' by {
          assert s[4..] != [];
          if |s[4..]| < 4 {
            assert t == s[4..];
            assert s[4] in s;
          } else {
            assert false;
          }
        }
      } else {
        assert r[|r| - 1] == t[|t| - 1] && r[|r| - 2] == t[|t| - 2];
      }
    } else {
      DashEveryFourEnd(s[1..]);
      var t := DashEveryFour(s[1..]);
      var r := [s[0]] + t;
      assert r[|r| - 1] == t[|t| - 1] && r[|r| - 2] == t[|t| - 2];
    }
  }

  /** For a hyphen-free value: removing the hyphens gives the value back,
      and the result never ends with `-`. */
  lemma FormatValueFacts(val: string)
    requires '-' !in val
    ensures RemoveAll(FormatValue(val), '-') == val
    ensures FormatValue(val) != [] ==> FormatValue(val)[|FormatValue(val)| - 1] != '-'
  {
    var t := DashEveryFour(val);
    DashEveryFourClean(val);
    DashEveryFourEnd(val);
    if t != [] && t[|t| - 1] == '-' {
      assert t == t[..|t| - 1] + "-";
      RemoveAllConcat(t[..|t| - 1], "-", '-');
    }
  }

  /** On a single-line hyphen-free value the read-out is the key
      formatter's grouping. */
  lemma {:induction false} FormatValueIsGrouped(val: string)
    requires '-' !in val && SingleLine(val)
    ensures FormatValue(val) == KeyValidation.Grouped(val)
    decreases |val|
  {
    if |val| == 4 {
      assert DashEveryFour(val) == val + "-" by {
        assert DashEveryFour(val[4..]) == [];
        assert val[..4] == val;
      }
      assert (val + "-")[..4] == val;
    } else if |val| > 4 {
      FormatValueIsGrouped(val[4..]);
      var t := DashEveryFour(val[4..]);
      assert DashEveryFour(val) == val[..4] + "-" + t;
      if t != [] && t[|t| - 1] == '-' {
        assert (val[..4] + "-" + t)[..|val[..4] + "-" + t| - 1] == val[..4] + "-" + t[..|t| - 1];
      } else {
        assert t != [] by {
          DashEveryFourEnd(val[4..]);
        }
      }
    }
  }

  /** A 16-character code reads `XXXX-XXXX-XXXX-XXXX`, 19 characters. */
  lemma SixteenReadsNineteen(val: string)
    requires |val| == 16 && '-' !in val && SingleLine(val)
    ensures |FormatValue(val)| == 19
  {
    FormatValueIsGrouped(val);
    KeyValidation.SixteenGrouped(val);
  }

  datatype Shown = Prompt | Code(text: string)

  /** The text under the field: the prompt for an empty value. */
  function Readout(value: string): (r: Shown)
    ensures r.Prompt? <==> value == []
  {
    if value == "" then Prompt else Code(FormatValue(value))
  }
}
