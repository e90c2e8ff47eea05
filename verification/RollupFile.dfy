/** One append-only rollup day file: newline-terminated records and possibly a torn tail. */
module RollupFile {

  const NEWLINE := '\n'
  const RECOVERY_BOUND := 4 * 1024 * 1024

  /** Length of the part that ends with the last newline. */
  function Cut(b: string): (n: nat)
    ensures n <= |b|
  {
    if b == [] then 0
    else if b[|b| - 1] == NEWLINE then |b|
    else Cut(b[..|b| - 1])
  }

  function Tail(b: string): string {
    b[Cut(b)..]
  }

  /** The terminated lines of a file, without their newlines. */
  function Lines(b: string): seq<string>
    decreases |b|
  {
    if b == [] then []
    else if b[|b| - 1] == NEWLINE then
      var body := b[..|b| - 1];
      Lines(body[..Cut(body)]) + [Tail(body)]
    else Lines(b[..|b| - 1])
  }

  /** What a line scanner delivers: the terminated lines and a final unterminated one. */
  function Scanned(b: string): seq<string> {
    Lines(b) + if Tail(b) == "" then [] else [Tail(b)]
  }

  lemma {:induction false} CutFacts(b: string)
    ensures Cut(b) != 0 ==> b[Cut(b) - 1] == NEWLINE
    ensures NEWLINE !in Tail(b)
    ensures Cut(b[..Cut(b)]) == Cut(b)
    ensures Lines(b[..Cut(b)]) == Lines(b)
    decreases |b|
  {
    if b != [] {
      if b[|b| - 1] == NEWLINE {
        assert b[..Cut(b)] == b;
      } else {
        var c := b[..|b| - 1];
        CutFacts(c);
        assert b[..Cut(b)] == c[..Cut(c)];
        assert Tail(b) == Tail(c) + [b[|b| - 1]];
      }
    }
  }

  /** Text without a newline only lengthens the tail of a file that has none. */
  lemma {:induction false} TornAppend(b: string, t: string)
    requires Tail(b) == "" && NEWLINE !in t
    ensures Lines(b + t) == Lines(b) && Tail(b + t) == t && Cut(b + t) == |b|
    decreases |t|
  {
    if t == [] {
      assert b + t == b;
    } else {
      var init := t[..|t| - 1];
      assert NEWLINE !in init;
      TornAppend(b, init);
      assert (b + t)[..|b + t| - 1] == b + init;
    }
  }

  lemma WholeAppend(b: string, text: string)
    requires Tail(b) == "" && NEWLINE !in text
    ensures Lines(b + text + [NEWLINE]) == Lines(b) + [text]
    ensures Tail(b + text + [NEWLINE]) == ""
  {
    TornAppend(b, text);
    assert (b + text + [NEWLINE])[..|b + text|] == b + text;
    assert (b + text)[..|b|] == b;
  }

  /** Everything an append may leave behind, successful or not. */
  ghost predicate AppendResult(before: string, text: string, after: string, ok: bool) {
    if ok then Lines(after) == Lines(before) + [text] && Tail(after) == ""
    else
      || (Lines(after) == Lines(before) && (Tail(after) == Tail(before) || Tail(after) <= text))
      || (Lines(after) == Lines(before) + [text] && Tail(after) == "")
  }

  /** Which of the append's system calls fails, and after how many bytes. */
  datatype Fault = NoFault | NotOpened | NotTruncated | Torn(wrote: nat) | NotSynced

  /** The end of the last record is within reach; what follows it needs to be cut off. */
  predicate Recoverable(b: string, truncates: bool) {
    Tail(b) == "" || (truncates && (|Tail(b)| < 4_194_304 || |b| <= 4_194_304))
  }

  class DayFile {
    var content: string

    constructor (content: string)
      ensures this.content == content
    {
      this.content := content;
    }

    /** Scans backwards for the end of the last complete record and truncates after it. */
    method RecoverTail(truncates: bool) returns (ok: bool)
      modifies this
      ensures content == if ok then old(content)[..Cut(old(content))] else old(content)
      ensures ok <==> Recoverable(old(content), truncates)
    {
      CutFacts(content);
      if content == [] || content[|content| - 1] == NEWLINE {
        assert content == content[..Cut(content)];
        return true;
      }
      var start := if |content| > RECOVERY_BOUND then |content| - RECOVERY_BOUND else 0;
      var end := |content|;
      while end > start && content[end - 1] != NEWLINE
        invariant start <= end <= |content|
        invariant forall j | end <= j < |content| :: content[j] != NEWLINE
      {
        end := end - 1;
      }
      TailAfter(content, end);
      if end == start && start > 0 {
        return false;
      }
      if !truncates {
        return false;
      }
      content := content[..end];
      ok := true;
    }

    /** Discards a torn tail, then writes one terminated record. */
    method Append(text: string, fault: Fault) returns (ok: bool)
      requires NEWLINE !in text
      modifies this
      ensures AppendResult(old(content), text, content, ok)
      ensures ok <==> fault in {NoFault, NotTruncated} && Recoverable(old(content), fault == NoFault)
    {
      if fault == NotOpened {
        return false;
      }
      var recovered := RecoverTail(fault != NotTruncated);
      if !recovered {
        return false;
      }
      var payload := text + [NEWLINE];
      var wrote := if fault.Torn? && fault.wrote < |payload| then fault.wrote else |payload|;
      WriteResult(old(content), text, wrote);
      content := content + payload[..wrote];
      ok := fault in {NoFault, NotTruncated};
    }
  }

  lemma TailAfter(b: string, end: nat)
    requires end <= |b| && forall j | end <= j < |b| :: b[j] != NEWLINE
    ensures Cut(b) <= end
    ensures end > 0 && b[end - 1] == NEWLINE ==> Cut(b) == end
  {
    CutFacts(b);
    assert forall j | Cut(b) <= j < |b| :: b[j] == Tail(b)[j - Cut(b)];
  }

  /** After recovery, a write either completes the record or leaves a prefix of it as the tail. */
  lemma WriteResult(b: string, text: string, wrote: nat)
    requires NEWLINE !in text && wrote <= |text| + 1
    ensures var after := b[..Cut(b)] + (text + [NEWLINE])[..wrote];
      if wrote <= |text| then Lines(after) == Lines(b) && Tail(after) == text[..wrote]
      else Lines(after) == Lines(b) + [text] && Tail(after) == ""
  {
    CutFacts(b);
    var base := b[..Cut(b)];
    if wrote <= |text| {
      assert (text + [NEWLINE])[..wrote] == text[..wrote];
      TornAppend(base, text[..wrote]);
    } else {
      assert base + (text + [NEWLINE])[..wrote] == base + text + [NEWLINE];
      WholeAppend(base, text);
    }
  }
}
