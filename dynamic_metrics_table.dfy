/**
 * The dynamic metrics table: column headers made from snake_case labels, cell texts made from
 * arbitrary values, and which of the four views (loading, error, empty, table) is shown.
 */
module DynamicMetricsTable {
  import opened Wrappers
  import opened Js

  // ---------------------------------------------------------------- headers

  /** `word.charAt(0).toUpperCase() + word.slice(1)`. */
  function Capitalize(word: string): (capitalized: string)
    ensures |capitalized| == |word|
    ensures word != "" ==> capitalized[0] == UpperChar(word[0])
    ensures forall i :: 0 < i < |word| ==> capitalized[i] == word[i]
  {
    if word == "" then "" else [UpperChar(word[0])] + word[1..]
  }

  function CapitalizeAll(words: seq<string>): seq<string> {
    seq(|words|, i requires 0 <= i < |words| => Capitalize(words[i]))
  }

  /**
   * `formatHeader`: split on '_', capitalise every piece, join with ' '. The header is the label
   * rewritten character by character (`HeaderChars`), so it has the label's length.
   */
  function FormatHeader(column: string): (header: string)
    ensures header == HeaderChars(column, true)
    ensures |header| == |column|
  {
    var parts := Split(column, '_');
    PipelineIsHeaderChars(column);
    CapitalizeAllCons(parts[0], parts[1..]);
    assert [parts[0]] + parts[1..] == parts;
    HeaderCharsLength(column, true);
    Join(" ", CapitalizeAll(parts))
  }

  /**
   * The same text character by character: '_' becomes ' ', and a character that starts a piece
   * (the first one, or one right after '_') is upper-cased. `atStart` says whether `s[0]` starts one.
   */
  function HeaderChars(s: string, atStart: bool): string {
    if s == [] then []
    else [if s[0] == '_' then ' ' else if atStart then UpperChar(s[0]) else s[0]] + HeaderChars(s[1..], s[0] == '_')
  }

  /** The character `HeaderChars(s, atStart)` holds at position `i`. */
  function HeaderCharAt(s: string, atStart: bool, i: nat): char
    requires i < |s|
  {
    if s[i] == '_' then ' '
    else if (if i == 0 then atStart else s[i - 1] == '_') then UpperChar(s[i])
    else s[i]
  }

  lemma {:induction false} HeaderCharsLength(s: string, atStart: bool)
    ensures |HeaderChars(s, atStart)| == |s|
  {
    if s != [] {
      HeaderCharsLength(s[1..], s[0] == '_');
    }
  }

  lemma {:induction false} HeaderCharsIndex(s: string, atStart: bool, i: nat)
    requires i < |s|
    ensures |HeaderChars(s, atStart)| == |s|
    ensures HeaderChars(s, atStart)[i] == HeaderCharAt(s, atStart, i)
  {
    HeaderCharsLength(s, atStart);
    if i > 0 {
      HeaderCharsIndex(s[1..], s[0] == '_', i - 1);
      assert HeaderChars(s, atStart)[i] == HeaderChars(s[1..], s[0] == '_')[i - 1];
    }
  }

  lemma CapitalizeAllCons(first: string, rest: seq<string>)
    ensures CapitalizeAll([first] + rest) == [Capitalize(first)] + CapitalizeAll(rest)
  {
  }

  /** Joining `first` with the capitalised later pieces. */
  function JoinWithTail(first: string, parts: seq<string>): string
    requires parts != []
  {
    Join(" ", [first] + CapitalizeAll(parts[1..]))
  }

  /** The pipeline with its first piece left as is equals `HeaderChars(s, false)`; with the first
      piece capitalised it equals `HeaderChars(s, true)`. */
  lemma {:induction false} PipelineIsHeaderChars(s: string)
    ensures JoinWithTail(Split(s, '_')[0], Split(s, '_')) == HeaderChars(s, false)
    ensures JoinWithTail(Capitalize(Split(s, '_')[0]), Split(s, '_')) == HeaderChars(s, true)
  {
    var parts := Split(s, '_');
    if s == [] {
      assert parts == [""];
      assert CapitalizeAll(parts[1..]) == [];
    } else {
      var tail := Split(s[1..], '_');
      PipelineIsHeaderChars(s[1..]);
      if s[0] == '_' {
        assert parts == [""] + tail;
        assert parts[1..] == tail;
        assert Capitalize("") == "";
        CapitalizeAllCons(tail[0], tail[1..]);
        assert [tail[0]] + tail[1..] == tail;
        assert Join(" ", [""] + CapitalizeAll(tail)) == "" + " " + Join(" ", CapitalizeAll(tail));
      } else {
        var c := s[0];
        assert parts == [[c] + tail[0]] + tail[1..];
        assert parts[1..] == tail[1..];
        var rest := [tail[0]] + CapitalizeAll(tail[1..]);
        JoinConsFirst(" ", [c], rest);
        assert [[c] + rest[0]] + rest[1..] == [parts[0]] + CapitalizeAll(parts[1..]);
        assert Capitalize(parts[0]) == [UpperChar(c)] + tail[0];
        JoinConsFirst(" ", [UpperChar(c)], rest);
        assert [[UpperChar(c)] + rest[0]] + rest[1..] == [Capitalize(parts[0])] + CapitalizeAll(parts[1..]);
      }
    }
  }

  /** A header has the label's length and no '_'; its blanks sit exactly where the label has a
      '_' or a blank, so each '_' becomes one word break; every character is the label's,
      upper-cased at the start of a word, with '_' turned into ' '. */
  lemma FormatHeaderShape(column: string)
    ensures |FormatHeader(column)| == |column|
    ensures '_' !in FormatHeader(column)
    ensures forall i :: 0 <= i < |column| ==> (FormatHeader(column)[i] == ' ' <==> column[i] in "_ ")
    ensures forall i :: 0 <= i < |column| ==> FormatHeader(column)[i] == HeaderCharAt(column, true, i)
  {
    var h := FormatHeader(column);
    forall i | 0 <= i < |column| ensures h[i] == HeaderCharAt(column, true, i) {
      HeaderCharsIndex(column, true, i);
    }
    forall i | 0 <= i < |h| ensures h[i] != '_' && (h[i] == ' ' <==> column[i] in "_ ") {
      assert h[i] == HeaderCharAt(column, true, i);
    }
  }

  // ---------------------------------------------------------------- cells

  /** A cell's raw value; `Other` is an object or array, with the text `String(value)` gives it. */
  datatype JsValue = Null | Undefined | Number(n: real) | Boolean(b: bool) | Text(s: string) | Other(asString: string)

  /** Whether `n % 1 === 0`, i.e. `n` is a whole number. */
  predicate IsWhole(n: real) {
    n.Floor as real == n
  }

  /**
   * `formatValue`; `toLocaleString` (whole numbers) and `toFixed(2)` (others) are parameters.
   * Missing values read "N/A", booleans "Yes" or "No", text as it is, numbers through one of
   * the two formatters.
   */
  function FormatValue(value: JsValue, toLocaleString: real -> string, toFixed2: real -> string): (shown: string)
    ensures value.Null? || value.Undefined? ==> shown == "N/A"
    ensures value.Boolean? ==> (shown == "Yes" <==> value.b) && (shown == "No" <==> !value.b)
    ensures value.Text? ==> shown == value.s
    ensures value.Number? ==> shown == toLocaleString(value.n) || shown == toFixed2(value.n)
  {
    match value
    case Null => "N/A"
    case Undefined => "N/A"
    case Number(n) => if IsWhole(n) then toLocaleString(n) else toFixed2(n)
    case Boolean(b) => if b then "Yes" else "No"
    case Text(s) => s
    case Other(asString) => asString
  }

  /** Which formatter a number goes through: whole numbers `toLocaleString`, fractions (negative
      ones included) `toFixed(2)`. */
  lemma FormatValueCases(n: real, toLocaleString: real -> string, toFixed2: real -> string)
    ensures n.Floor as real == n ==> FormatValue(Number(n), toLocaleString, toFixed2) == toLocaleString(n)
    ensures n.Floor as real != n ==> FormatValue(Number(n), toLocaleString, toFixed2) == toFixed2(n)
    ensures FormatValue(Number(3.0), toLocaleString, toFixed2) == toLocaleString(3.0)
    ensures FormatValue(Number(-2.5), toLocaleString, toFixed2) == toFixed2(-2.5)
  {
    assert (-2.5).Floor == -3;
  }

  /** The cell `row[label]` of one row: a missing key reads as `undefined`. */
  function CellOf(row: map<string, JsValue>, column: string): JsValue {
    if column in row then row[column] else Undefined
  }

  // ---------------------------------------------------------------- rendering

  datatype View =
    | LoadingView
    | ErrorView(message: string)
    | EmptyView
    | TableView(headers: seq<string>, rows: seq<seq<string>>, footer: string)

  /** The record count under the table: "record" for exactly one value, "records" otherwise. */
  function Footer(count: nat): (footer: string)
    ensures |footer| > 8 && footer[..8] == "Showing "
    ensures footer[|footer| - 1] == 's' <==> count != 1
  {
    "Showing " + NatToString(count) + " " + (if count == 1 then "record" else "records")
  }

  /** The component: loading first, then a non-empty error, then missing or empty values, else the table. */
  function Render(labels: seq<string>, values: Option<seq<map<string, JsValue>>>, isLoading: bool,
                  error: Option<string>, toLocaleString: real -> string, toFixed2: real -> string): (v: View)
    ensures isLoading <==> v.LoadingView?
    ensures v.ErrorView? <==> !isLoading && Truthy(error)
    ensures v.ErrorView? ==> v.message == error.value
    ensures v.EmptyView? <==> !isLoading && !Truthy(error) && (values.None? || values.value == [])
    ensures v.TableView? <==> !isLoading && !Truthy(error) && values.Some? && values.value != []
  {
    if isLoading then LoadingView
    else if Truthy(error) then ErrorView(error.value)
    else if values.None? || values.value == [] then EmptyView
    else
      var rows := values.value;
      TableView(
        seq(|labels|, j requires 0 <= j < |labels| => FormatHeader(labels[j])),
        seq(|rows|, i requires 0 <= i < |rows| =>
          seq(|labels|, j requires 0 <= j < |labels| => FormatValue(CellOf(rows[i], labels[j]), toLocaleString, toFixed2))),
        Footer(|rows|))
  }

  /** The table has one header per column and, per value, one cell per column in column order; the
      footer says "record" only for exactly one value. */
  lemma TableShape(labels: seq<string>, rows: seq<map<string, JsValue>>, toLocaleString: real -> string, toFixed2: real -> string)
    requires rows != []
    ensures var v := Render(labels, Some(rows), false, None, toLocaleString, toFixed2);
      && v.TableView?
      && |v.headers| == |labels| && (forall j :: 0 <= j < |labels| ==> v.headers[j] == FormatHeader(labels[j]))
      && |v.rows| == |rows|
      && (forall i :: 0 <= i < |rows| ==> |v.rows[i]| == |labels|)
      && (forall i, j :: 0 <= i < |rows| && 0 <= j < |labels| ==>
            v.rows[i][j] == FormatValue(CellOf(rows[i], labels[j]), toLocaleString, toFixed2))
      && (v.footer == "Showing " + NatToString(|rows|) + " record" <==> |rows| == 1)
  {
    var v := Render(labels, Some(rows), false, None, toLocaleString, toFixed2);
    var prefix := "Showing " + NatToString(|rows|) + " record";
    if |rows| != 1 {
      assert v.footer == prefix + "s";
      assert |v.footer| != |prefix|;
    }
  }
}
