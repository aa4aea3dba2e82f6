/**
 * The JSON editor used to paste generated questions: the text, the status
 * line (held in the component's `error` state), the line-number gutter
 * derived from the text, and the change, format and copy actions.
 */
module JsonEditor {
  import opened Js

  /** The outcome of `JSON.parse(text)`: a value, or the `message` of the thrown error. */
  datatype ParseResult<J> = Parsed(value: J) | SyntaxError(message: string)

  /** The footer: the status line when there is one, otherwise the hint. */
  datatype Footer = StatusLine(text: string) | Hint

  const FormattedStatus: string := "Formatted \U{2713}"
  const InvalidJsonPrefix: string := "Invalid JSON: "
  const CopiedStatus: string := "Template copied \U{2713}"
  const CopyFailedStatus: string := "Unable to copy"

  /** The number of `'\n'` characters of `s`. */
  function Newlines(s: string): nat
  {
    multiset(s)['\n']
  }

  /** `s.split("\n")`. */
  function Split(s: string): (r: seq<string>)
    ensures |r| == Newlines(s) + 1
    ensures forall i :: 0 <= i < |r| ==> '\n' !in r[i]
  {
    if s == [] then [""]
    else
      var rest := Split(s[1..]);
      assert s == [s[0]] + s[1..];
      assert multiset(s) == multiset([s[0]]) + multiset(s[1..]);
      if s[0] == '\n' then [""] + rest
      else [[s[0]] + rest[0]] + rest[1..]
  }

  /** `lines.join("\n")`. */
  function Join(lines: seq<string>): string
  {
    if |lines| <= 1 then (if lines == [] then "" else lines[0])
    else lines[0] + "\n" + Join(lines[1..])
  }

  lemma {:induction false} JoinCons(head: string, rest: seq<string>)
    requires |rest| >= 1
    ensures Join([head] + rest) == head + "\n" + Join(rest)
  {
  }

  /** Gluing a character onto the first line glues it onto the joined text. */
  lemma {:induction false} JoinPrependChar(c: char, rest: seq<string>)
    requires |rest| >= 1
    ensures Join([[c] + rest[0]] + rest[1..]) == [c] + Join(rest)
  {
  }

  /** Splitting at the newlines loses nothing: joining the pieces gives the text back. */
  lemma {:induction false} JoinSplit(s: string)
    ensures Join(Split(s)) == s
  {
    if s != [] {
      JoinSplit(s[1..]);
      var rest := Split(s[1..]);
      assert s == [s[0]] + s[1..];
      if s[0] == '\n' {
        JoinCons("", rest);
      } else {
        JoinPrependChar(s[0], rest);
      }
    }
  }

  /** `(text || "").split("\n").length`. */
  function LineCount(text: string): (n: nat)
    ensures n == Newlines(text) + 1
    ensures n >= 1
  {
    |Split(text)|
  }

  /** `Array.from({ length: Math.max(1, lineCount) }, (_, i) => i + 1)`: the gutter. */
  function LineNumbers(text: string): (r: seq<int>)
    ensures |r| == Newlines(text) + 1
    ensures forall i :: 0 <= i < |r| ==> r[i] == i + 1
  {
    var n := LineCount(text);
    var len := if n < 1 then 1 else n;
    seq(len, i => i + 1)
  }

  /** An empty text still shows line 1. */
  lemma EmptyTextHasOneLine()
    ensures LineNumbers("") == [1]
  {
  }

  /** Each line break typed adds exactly one line number. */
  lemma LineCountOfAppendedNewline(text: string)
    ensures LineCount(text + "\n") == LineCount(text) + 1
  {
  }

  /** `{error ? <status> : <hint>}`. */
  function FooterFor(error: Option<string>): (f: Footer)
    ensures Truthy(error) ==> f == StatusLine(error.value)
    ensures !Truthy(error) ==> f == Hint
  {
    if Truthy(error) then StatusLine(error.value) else Hint
  }

  /** The status `formatClick` sets, for a given parse outcome. */
  function FormatStatus<J>(parsed: ParseResult<J>): (r: string)
    ensures parsed.Parsed? ==> r == FormattedStatus
    ensures parsed.SyntaxError? ==> r == InvalidJsonPrefix + parsed.message
    ensures r != ""
  {
    match parsed
    case Parsed(_) => FormattedStatus
    case SyntaxError(m) => InvalidJsonPrefix + m
  }

  /** A status set by Format or Copy always shows in the footer. */
  lemma ActionStatusShows<J>(parsed: ParseResult<J>, copied: bool)
    ensures FooterFor(Some(FormatStatus(parsed))) == StatusLine(FormatStatus(parsed))
    ensures FooterFor(Some(if copied then CopiedStatus else CopyFailedStatus)) != Hint
  {
  }

  class Editor {
    var text: string
    /** The status line; null shows the hint. */
    var error: Option<string>

    constructor (initialValue: string := "")
      ensures text == initialValue && error.None?
    {
      text := initialValue;
      error := None;
    }

    /** The textarea's change event; `onChange` receives `forwarded`. */
    method HandleChange(value: string) returns (forwarded: string)
      modifies this
      ensures text == value && forwarded == value
      ensures error == old(error)
    {
      text := value;
      forwarded := value;
    }

    /**
     * `formatClick`: on a successful parse the text becomes the re-serialised
     * form, which `onChange` receives; on a failed one the text is kept and
     * only the status changes.
     */
    method Format<J>(parse: string -> ParseResult<J>, stringify: J -> string) returns (forwarded: Option<string>)
      modifies this
      ensures error == Some(FormatStatus(parse(old(text))))
      ensures parse(old(text)).Parsed? ==>
        text == stringify(parse(old(text)).value) && forwarded == Some(text)
      ensures parse(old(text)).SyntaxError? ==> text == old(text) && forwarded.None?
    {
      var parsed := parse(text);
      match parsed {
        case Parsed(v) =>
          var pretty := stringify(v);
          text := pretty;
          forwarded := Some(pretty);
          error := Some(FormattedStatus);
        case SyntaxError(m) =>
          forwarded := None;
          error := Some(InvalidJsonPrefix + m);
      }
    }

    /** `copyClick`, with the clipboard write's success as a parameter. */
    method CopyTemplate(copied: bool)
      modifies this
      ensures text == old(text)
      ensures error == Some(if copied then CopiedStatus else CopyFailedStatus)
    {
      if copied {
        error := Some(CopiedStatus);
      } else {
        error := Some(CopyFailedStatus);
      }
    }
  }
}
