/**
 * The split of an exercise log's raw string into tokens:
 * `logs_str.rstrip(",").split(",")` in main.py, i.e. Python's `str.rstrip`
 * with a one-character set and `str.split` with an explicit separator.
 */
module Logs {

  const Comma: char := ','

  /** `s.rstrip(c)`: `s` with every trailing `c` removed. */
  function RStrip(s: string, c: char): (r: string)
    ensures r <= s
    ensures |r| == 0 || r[|r| - 1] != c
    ensures forall i :: |r| <= i < |s| ==> s[i] == c
    decreases |s|
  {
    if |s| > 0 && s[|s| - 1] == c then RStrip(s[..|s| - 1], c) else s
  }

  /**
   * `s.split(sep)`: the maximal separator-free pieces of `s`, in order. An
   * empty string gives one empty token, and two adjacent separators give
   * an empty token between them.
   */
  function Split(s: string, sep: char): (r: seq<string>)
    ensures |r| > 0
    ensures forall i :: 0 <= i < |r| ==> sep !in r[i]
    decreases |s|
  {
    if |s| == 0 then [""]
    else
      var rest := Split(s[1..], sep);
      if s[0] == sep then [""] + rest
      else [[s[0]] + rest[0]] + rest[1..]
  }

  /** `sep.join(ts)`, the inverse of Split. */
  function Join(ts: seq<string>, sep: char): string
    decreases |ts|
  {
    if |ts| == 0 then ""
    else if |ts| == 1 then ts[0]
    else ts[0] + [sep] + Join(ts[1..], sep)
  }

  /** The logs of one exercise-log row, as main.py computes them from column 4. */
  function SplitLogs(s: string): seq<string>
  {
    Split(RStrip(s, Comma), Comma)
  }

  /** Joining the pieces of a split gives back the string that was split. */
  lemma {:induction false} JoinSplit(s: string, sep: char)
    ensures Join(Split(s, sep), sep) == s
    decreases |s|
  {
    if |s| > 0 {
      var rest := Split(s[1..], sep);
      JoinSplit(s[1..], sep);
      if s[0] == sep {
        assert ([""] + rest)[1..] == rest;
        assert s == [sep] + s[1..];
      } else {
        var r := [[s[0]] + rest[0]] + rest[1..];
        if |rest| == 1 {
          assert s == [s[0]] + s[1..];
        } else {
          assert r[1..] == rest[1..];
          assert Join(rest, sep) == rest[0] + [sep] + Join(rest[1..], sep);
          assert s == [s[0]] + s[1..];
        }
      }
    }
  }

  /** A string without the separator splits to itself alone. */
  lemma {:induction false} SplitNoSeparator(t: string, sep: char)
    requires sep !in t
    ensures Split(t, sep) == [t]
    decreases |t|
  {
    if |t| > 0 {
      SplitNoSeparator(t[1..], sep);
      assert [t[0]] + t[1..] == t;
    }
  }

  /** Splitting `t + [sep] + u`, with `t` separator-free, peels off `t` as the first token. */
  lemma {:induction false} SplitCons(t: string, u: string, sep: char)
    requires sep !in t
    ensures Split(t + [sep] + u, sep) == [t] + Split(u, sep)
    decreases |t|
  {
    if |t| == 0 {
      assert t + [sep] + u == [sep] + u;
      assert ([sep] + u)[1..] == u;
    } else {
      var s := t + [sep] + u;
      assert s[0] == t[0];
      assert s[1..] == t[1..] + [sep] + u;
      SplitCons(t[1..], u, sep);
      assert [t[0]] + t[1..] == t;
    }
  }

  /** Splitting a join of separator-free tokens gives the tokens back. */
  lemma {:induction false} SplitJoin(ts: seq<string>, sep: char)
    requires |ts| > 0
    requires forall i :: 0 <= i < |ts| ==> sep !in ts[i]
    ensures Split(Join(ts, sep), sep) == ts
    decreases |ts|
  {
    if |ts| == 1 {
      SplitNoSeparator(ts[0], sep);
    } else {
      SplitJoin(ts[1..], sep);
      SplitCons(ts[0], Join(ts[1..], sep), sep);
      assert [ts[0]] + ts[1..] == ts;
    }
  }

  /** A join whose last token is empty, over two tokens or more, ends in the separator. */
  lemma {:induction false} JoinEndsInSeparator(ts: seq<string>, sep: char)
    requires |ts| > 1 && ts[|ts| - 1] == ""
    ensures |Join(ts, sep)| > 0 && Join(ts, sep)[|Join(ts, sep)| - 1] == sep
    decreases |ts|
  {
    if |ts| > 2 {
      JoinEndsInSeparator(ts[1..], sep);
    } else {
      assert Join(ts[1..], sep) == "";
    }
  }

  /**
   * What the split of a logs string guarantees: at least one token, no
   * token holds a comma, the tokens joined with commas give the string
   * without its trailing commas, and the last token is empty only when it
   * is the only one.
   */
  lemma SplitLogsFacts(s: string)
    ensures |SplitLogs(s)| > 0
    ensures forall i :: 0 <= i < |SplitLogs(s)| ==> Comma !in SplitLogs(s)[i]
    ensures Join(SplitLogs(s), Comma) == RStrip(s, Comma)
    ensures |SplitLogs(s)| > 1 ==> SplitLogs(s)[|SplitLogs(s)| - 1] != ""
  {
    var r := RStrip(s, Comma);
    JoinSplit(r, Comma);
    if |SplitLogs(s)| > 1 && SplitLogs(s)[|SplitLogs(s)| - 1] == "" {
      JoinEndsInSeparator(SplitLogs(s), Comma);
    }
  }

  /** One more trailing comma does not change the split. */
  lemma {:induction false} SplitLogsTrailingComma(s: string)
    ensures SplitLogs(s + [Comma]) == SplitLogs(s)
  {
    var t := s + [Comma];
    assert t[..|t| - 1] == s;
  }

  /** Tokens without commas, the last one non-empty, are what their comma join splits to. */
  lemma SplitLogsJoin(ts: seq<string>)
    requires |ts| > 0 && ts[|ts| - 1] != ""
    requires forall i :: 0 <= i < |ts| ==> Comma !in ts[i]
    ensures SplitLogs(Join(ts, Comma)) == ts
  {
    JoinLastChar(ts, Comma);
    SplitJoin(ts, Comma);
  }

  /** The last character of a join is the last character of its last token. */
  lemma {:induction false} JoinLastChar(ts: seq<string>, sep: char)
    requires |ts| > 0 && ts[|ts| - 1] != ""
    ensures |Join(ts, sep)| > 0
    ensures Join(ts, sep)[|Join(ts, sep)| - 1] == ts[|ts| - 1][|ts[|ts| - 1]| - 1]
    decreases |ts|
  {
    if |ts| > 1 {
      JoinLastChar(ts[1..], sep);
    }
  }

  /** The example of the log format: a trailing comma leaves no trailing empty token. */
  lemma TrailingCommaExample()
    ensures SplitLogs("10,135,0,") == ["10", "135", "0"]
    ensures SplitLogs("10,135,0") == ["10", "135", "0"]
  {
    SplitLogsTrailingComma("10,135,0");
    assert "10,135,0" + [Comma] == "10,135,0,";
    SplitLogsJoin(["10", "135", "0"]);
    assert Join(["10", "135", "0"], Comma) == "10,135,0";
  }
}
