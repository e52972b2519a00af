/**
 * The read-only file preview. The text grows page by page or is replaced; the
 * editor only ever inserts what is new, and the editor library turns the line
 * ends of each insertion into newlines by itself.
 */
module BlobEditor {

  /** The library's reading of an inserted text: CRLF, CR and LF each end a line. */
  function Normalize(s: string): string
    decreases |s|
  {
    if s == [] then []
    else if s[0] == '\r' then "\n" + Normalize(if |s| > 1 && s[1] == '\n' then s[2..] else s[1..])
    else [s[0]] + Normalize(s[1..])
  }

  /** An LF right after a CR belongs to the same line end. */
  predicate Completes(s: string, i: nat) {
    0 < i < |s| && s[i] == '\n' && s[i - 1] == '\r'
  }

  /** The first `n` characters, one by one: the LF of a CRLF is dropped, a CR becomes a newline. */
  function CharByChar(s: string, n: nat): string
    requires n <= |s|
  {
    if n == 0 then []
    else CharByChar(s, n - 1) + if Completes(s, n - 1) then [] else [if s[n - 1] == '\r' then '\n' else s[n - 1]]
  }

  lemma {:induction false} CharByCharOfRest(s: string, k: nat, n: nat)
    requires k <= n <= |s| && !Completes(s, k)
    ensures CharByChar(s, n) == CharByChar(s, k) + CharByChar(s[k..], n - k)
    decreases n
  {
    if n > k {
      CharByCharOfRest(s, k, n - 1);
      assert n - 1 > k ==> (Completes(s, n - 1) <==> Completes(s[k..], n - 1 - k));
      assert s[n - 1] == s[k..][n - 1 - k];
    }
  }

  /** Splitting into lines and going character by character give the same text. */
  lemma {:induction false} NormalizeMeaning(s: string)
    ensures Normalize(s) == CharByChar(s, |s|)
    decreases |s|
  {
    if s != [] {
      var k := if s[0] == '\r' && |s| > 1 && s[1] == '\n' then 2 else 1;
      NormalizeMeaning(s[k..]);
      CharByCharOfRest(s, k, |s|);
      assert CharByChar(s, 1) == [if s[0] == '\r' then '\n' else s[0]];
      assert k == 2 ==> CharByChar(s, 2) == CharByChar(s, 1) + [];
    }
  }

  predicate EndsInReturn(s: string) {
    s != [] && s[|s| - 1] == '\r'
  }

  /** What has to be inserted after `before` when `rest` follows it. */
  function Addition(before: string, rest: string): string {
    if EndsInReturn(before) && rest != [] && rest[0] == '\n' then rest[1..] else rest
  }

  lemma {:induction false} CharByCharPrefix(s: string, more: string, n: nat)
    requires n <= |s|
    ensures CharByChar(s + more, n) == CharByChar(s, n)
    decreases n
  {
    if n > 0 {
      CharByCharPrefix(s, more, n - 1);
    }
  }

  /** Line ends may be normalised page by page, even where a page ends between CR and LF. */
  lemma NormalizeInPages(before: string, rest: string)
    ensures Normalize(before + rest) == Normalize(before) + Normalize(Addition(before, rest))
  {
    var s := before + rest;
    var k := |before| + |rest| - |Addition(before, rest)|;
    NormalizeMeaning(s);
    NormalizeMeaning(before);
    NormalizeMeaning(Addition(before, rest));
    CharByCharPrefix(before, rest, |before|);
    assert s[k..] == Addition(before, rest);
    CharByCharOfRest(s, k, |s|);
    if k > |before| {
      assert Completes(s, k - 1);
      assert CharByChar(s, k) == CharByChar(s, k - 1) + [];
    }
  }

  // ---- The editor ----

  datatype Editor = Editor(previous: string, doc: string)

  const Blank := Editor("", "")

  /** The editor is built anew, or shows a text. */
  datatype Event = Mount | Show(text: string)

  function Update(e: Editor, event: Event): Editor {
    match event
    case Mount => Blank
    case Show(text) =>
      if e.previous <= text
      then Editor(text, e.doc + Normalize(Addition(e.previous, text[|e.previous|..])))
      else Editor(text, Normalize(text))
  }

  class Preview {
    var previous: string
    var doc: string

    function View(): Editor
      reads this
    {
      Editor(previous, doc)
    }

    constructor ()
      ensures View() == Blank
    {
      previous, doc := "", "";
    }

    method Remount()
      modifies this
      ensures View() == Update(old(View()), Mount)
    {
      previous, doc := "", "";
    }

    /** The part of the text that the editor does not have yet. */
    method Insertion(text: string, append: bool) returns (insert: string)
      requires append ==> previous <= text
      ensures insert == if append then Addition(previous, text[|previous|..]) else text
    {
      insert := if append then text[|previous|..] else text;
      if append && previous != "" && previous[|previous| - 1] == '\r' && insert != "" && insert[0] == '\n' {
        insert := insert[1..];
      }
    }

    /** Replace the document from `start` to its end. */
    method Dispatch(start: nat, insert: string)
      requires start == 0 || start == |doc|
      modifies this`doc
      ensures doc == old(doc)[..start] + Normalize(insert)
    {
      doc := doc[..start] + Normalize(insert) + doc[|doc|..];
    }

    /** The document always becomes the whole text, whether it was extended or replaced. */
    method ShowText(text: string)
      requires doc == Normalize(previous)
      modifies this
      ensures View() == Update(old(View()), Show(text))
      ensures previous == text && doc == Normalize(text)
    {
      var append := previous <= text;
      var insert := Insertion(text, append);
      if append {
        NormalizeInPages(previous, text[|previous|..]);
        assert previous + text[|previous|..] == text;
      }
      Dispatch(if append then |doc| else 0, insert);
      previous := text;
    }
  }

  function After(events: seq<Event>): Editor {
    if events == [] then Blank else Update(After(events[..|events| - 1]), events[|events| - 1])
  }

  /** The text shown last since the editor was built. */
  function Shown(events: seq<Event>): string {
    if events == [] then ""
    else match events[|events| - 1]
      case Mount => ""
      case Show(text) => text
  }

  /** After any sequence of texts and rebuilds the document is the whole last text with its line ends normalised. */
  lemma {:induction false} DocumentIsWholeText(events: seq<Event>)
    ensures After(events) == Editor(Shown(events), CharByChar(Shown(events), |Shown(events)|))
    decreases |events|
  {
    if events != [] {
      var before := events[..|events| - 1];
      DocumentIsWholeText(before);
      NormalizeMeaning(Shown(before));
      NormalizeMeaning(Shown(events));
      var event := events[|events| - 1];
      if event.Show? && Shown(before) <= event.text {
        var rest := event.text[|Shown(before)|..];
        assert Shown(before) + rest == event.text;
        NormalizeInPages(Shown(before), rest);
      }
    }
  }
}
