/**
 * Speech boxes: a fixed 20-character buffer holding a NUL-terminated string,
 * the edits keyboard input makes to it, the save records it emits, its split
 * into 10-character lines for drawing, and the selection of saved records
 * into the three boxes at start-up.
 */
module Text {
  import opened Config

  const NUL: char := '\0'
  const SAVE_FILE_DELIMITER: char := '\n'

  /** strlen over a buffer: the index of the first NUL, or the whole length when there is none. */
  function StrLen(s: seq<char>): (n: nat)
    ensures n <= |s|
    ensures forall k :: 0 <= k < n ==> s[k] != NUL
    ensures n < |s| ==> s[n] == NUL
  {
    StrLenFrom(s, 0)
  }

  /** The scan strlen makes, from index i on. */
  function StrLenFrom(s: seq<char>, i: nat): (n: nat)
    requires i <= |s|
    ensures i <= n <= |s|
    ensures forall k :: i <= k < n ==> s[k] != NUL
    ensures n < |s| ==> s[n] == NUL
    decreases |s| - i
  {
    if i == |s| || s[i] == NUL then i else StrLenFrom(s, i + 1)
  }

  /** The two facts above pin the length down. */
  lemma StrLenIs(s: seq<char>, n: nat)
    requires n <= |s|
    requires forall k :: 0 <= k < n ==> s[k] != NUL
    requires n < |s| ==> s[n] == NUL
    ensures StrLen(s) == n
  {
  }

  /** A prefix of non-NUL characters is never longer than the string. */
  lemma StrLenAtLeast(s: seq<char>, n: nat)
    requires n <= |s|
    requires forall k :: 0 <= k < n ==> s[k] != NUL
    ensures StrLen(s) >= n
  {
  }

  predicate NoNul(s: seq<char>)
  {
    forall k :: 0 <= k < |s| ==> s[k] != NUL
  }

  /** A NUL right after a NUL-free text ends the C string there. */
  lemma CStringOf(text: seq<char>, rest: seq<char>)
    requires NoNul(text) && |rest| > 0 && rest[0] == NUL
    ensures StrLen(text + rest) == |text| && CString(text + rest) == text
  {
    StrLenIs(text + rest, |text|);
    assert (text + rest)[..|text|] == text;
  }

  /** The C string a buffer holds: everything before the first NUL. */
  function CString(s: seq<char>): seq<char>
  {
    s[..StrLen(s)]
  }

  /** A C string cut to what fits a box with its terminator: at most 19 characters. */
  function Clipped(s: seq<char>): (r: string)
    ensures |r| == Min(StrLen(s), TEXT_BOX_BUFFER_SIZE - 1)
    ensures |r| < TEXT_BOX_BUFFER_SIZE && NoNul(r)
    ensures r == s[..|r|]
  {
    s[..Min(StrLen(s), TEXT_BOX_BUFFER_SIZE - 1)]
  }

  /**
   * strncpy(dest, src, n): the first n cells get src's characters up to its
   * NUL and NUL after that; the cells from n on keep what they held.
   */
  function Strncpy(dest: seq<char>, src: seq<char>, n: nat): (r: seq<char>)
    requires n <= |dest|
  {
    seq(|dest|, k requires 0 <= k < |dest| => if k >= n then dest[k] else if k < StrLen(src) then src[k] else NUL)
  }

  /**
   * strncpy terminates the copy only when the source is shorter than n: a
   * source of n or more characters fills all n cells with no NUL among them.
   */
  lemma StrncpyTerminates(dest: seq<char>, src: seq<char>, n: nat)
    requires n <= |dest|
    ensures var r := Strncpy(dest, src, n);
      && (StrLen(src) < n ==> CString(r) == CString(src))
      && (StrLen(src) >= n ==> r[..n] == src[..n] && NoNul(r[..n]))
  {
    var r := Strncpy(dest, src, n);
    if StrLen(src) < n {
      StrLenIs(r, StrLen(src));
    } else {
      assert forall k :: 0 <= k < n ==> r[..n][k] == src[k];
    }
  }

  /** strncpy on an array, as the C library does it: copy until NUL or n, then pad with NUL. */
  method StrNCopy(dest: array<char>, src: seq<char>, n: nat)
    requires n <= dest.Length
    modifies dest
    ensures dest[..] == Strncpy(old(dest[..]), src, n)
  {
    var i := 0;
    while i < n && i < |src| && src[i] != NUL
      invariant 0 <= i <= n && i <= |src|
      invariant forall k :: 0 <= k < i ==> src[k] != NUL && dest[k] == src[k]
      invariant forall k :: i <= k < dest.Length ==> dest[k] == old(dest[k])
    {
      dest[i] := src[i];
      i := i + 1;
    }
    StrLenAtLeast(src, i);
    if i < n {
      StrLenIs(src, i);
    }
    ghost var copied := i;
    assert copied == Min(n, StrLen(src));
    while i < n
      invariant copied <= i <= n
      invariant forall k :: 0 <= k < i ==> dest[k] == if k < copied then src[k] else NUL
      invariant forall k :: i <= k < dest.Length ==> dest[k] == old(dest[k])
    {
      dest[i] := NUL;
      i := i + 1;
    }
    assert forall k :: 0 <= k < dest.Length ==> dest[..][k] == Strncpy(old(dest[..]), src, n)[k];
  }

  /** renderTextBox's split: 10-character lines, the last one holding what is left (possibly nothing). */
  function Lines(t: string): seq<string>
    decreases |t|
  {
    if |t| < TEXT_BOX_MAX_LINE_SIZE then [t]
    else [t[..TEXT_BOX_MAX_LINE_SIZE]] + Lines(t[TEXT_BOX_MAX_LINE_SIZE..])
  }

  function Concat(ls: seq<string>): string
  {
    if |ls| == 0 then [] else ls[0] + Concat(ls[1..])
  }

  /**
   * There are len/10 + 1 lines; all but the last are full, the last holds
   * len % 10 characters, and putting them back together gives the text.
   */
  lemma {:induction false} LinesShape(t: string)
    ensures |Lines(t)| == |t| / TEXT_BOX_MAX_LINE_SIZE + 1
    ensures Concat(Lines(t)) == t
    ensures forall j :: 0 <= j < |Lines(t)| - 1 ==> |Lines(t)[j]| == TEXT_BOX_MAX_LINE_SIZE
    ensures |Lines(t)[|Lines(t)| - 1]| == |t| % TEXT_BOX_MAX_LINE_SIZE
    decreases |t|
  {
    if |t| >= TEXT_BOX_MAX_LINE_SIZE {
      var rest := t[TEXT_BOX_MAX_LINE_SIZE..];
      LinesShape(rest);
      assert Lines(t)[1..] == Lines(rest);
      assert t == t[..TEXT_BOX_MAX_LINE_SIZE] + rest;
    }
  }

  /** Line j is the slice starting at 10 * j, cut at the end of the text. */
  lemma {:induction false} LinesAt(t: string, j: nat)
    requires j < |t| / TEXT_BOX_MAX_LINE_SIZE + 1
    ensures j * TEXT_BOX_MAX_LINE_SIZE <= |t|
    ensures |Lines(t)| > j
    ensures Lines(t)[j] == t[j * TEXT_BOX_MAX_LINE_SIZE .. Min(j * TEXT_BOX_MAX_LINE_SIZE + TEXT_BOX_MAX_LINE_SIZE, |t|)]
    decreases j
  {
    if j > 0 {
      var rest := t[TEXT_BOX_MAX_LINE_SIZE..];
      LinesAt(rest, j - 1);
      assert Lines(t)[j] == Lines(rest)[j - 1];
    }
  }

  /** The C string starting inside a terminated buffer, read through a window of m cells. */
  lemma CStringWindow(b: seq<char>, start: nat, m: nat)
    requires StrLen(b) < |b| && start <= StrLen(b) && start + m <= |b|
    ensures CString(b[start..start + m]) == b[start..Min(start + m, StrLen(b))]
  {
    var len := StrLen(b);
    var w := b[start..start + m];
    if start + m <= len {
      assert NoNul(w) by {
        forall k | 0 <= k < m ensures w[k] != NUL {
          assert w[k] == b[start + k];
        }
      }
      StrLenIs(w, m);
    } else {
      var text := b[start..len];
      assert NoNul(text) by {
        forall k | 0 <= k < |text| ensures text[k] != NUL {
          assert text[k] == b[start + k];
        }
      }
      assert w == text + b[len..start + m];
      CStringOf(text, b[len..start + m]);
    }
  }

  class TextBox {
    const textBuffer: array<char>

    /** The buffer has its 20 cells and a NUL inside them. */
    ghost predicate Valid()
      reads textBuffer
    {
      textBuffer.Length == TEXT_BOX_BUFFER_SIZE && StrLen(textBuffer[..]) < TEXT_BOX_BUFFER_SIZE
    }

    /** What strlen and the renderer see. */
    function Text(): string
      reads textBuffer
    {
      CString(textBuffer[..])
    }

    /**
     * loadTextBox with the length clamped to 19, so that the NUL falls inside
     * the buffer (the code as written clamps to 20; see LoadTextBoxAsWritten).
     * Cells after the NUL are uninitialised in the C code; here they are NUL.
     */
    constructor (defaultText: string)
      ensures Valid() && fresh(textBuffer)
      ensures Text() == Clipped(defaultText)
    {
      textBuffer := new char[TEXT_BOX_BUFFER_SIZE](_ => NUL);
      new;
      Assign(Clipped(defaultText));
    }

    /** strncpy(buffer, s, |s|) followed by buffer[|s|] = NUL: the box now says s. */
    method Assign(s: string)
      requires textBuffer.Length == TEXT_BOX_BUFFER_SIZE
      requires |s| < TEXT_BOX_BUFFER_SIZE && NoNul(s)
      modifies textBuffer
      ensures Valid() && Text() == s
    {
      StrLenIs(s, |s|);
      StrNCopy(textBuffer, s, |s|);
      textBuffer[|s|] := NUL;
      StrLenIs(textBuffer[..], |s|);
      assert textBuffer[..][..|s|] == s;
    }

    /** handleTextInput, BACKSPACE on a non-empty buffer: the last character goes. */
    method Backspace()
      requires Valid() && |Text()| > 0
      modifies textBuffer
      ensures Valid() && Text() == old(Text())[..|old(Text())| - 1]
    {
      var textLen := StrLen(textBuffer[..]);
      textBuffer[textLen - 1] := NUL;
      StrLenIs(textBuffer[..], textLen - 1);
    }

    /**
     * handleTextInput, RETURN: the delimiter is written over the NUL, the
     * text and delimiter form the save record, and the NUL is put back.
     */
    method SaveRecord() returns (record: string)
      requires Valid()
      modifies textBuffer
      ensures record == old(Text()) + [SAVE_FILE_DELIMITER]
      ensures textBuffer[..] == old(textBuffer[..])
    {
      var textLen := StrLen(textBuffer[..]);
      textBuffer[textLen] := SAVE_FILE_DELIMITER;
      record := textBuffer[..textLen + 1];
      textBuffer[textLen] := NUL;
      assert textBuffer[..] == old(textBuffer[..]);
    }

    /**
     * handleTextInput, TEXTINPUT with len < 19: strncat bounded by the room
     * left for the terminator (19 - len), so the text grows by a prefix of the
     * input and the NUL stays inside the buffer. The code as written passes
     * 20 - len; see MultiCharInputOverflows.
     */
    method AppendInput(input: string)
      requires Valid() && |Text()| < TEXT_BOX_BUFFER_SIZE - 1
      modifies textBuffer
      ensures Valid()
      ensures Text() == old(Text()) + input[..Min(StrLen(input), TEXT_BOX_BUFFER_SIZE - 1 - |old(Text())|)]
      ensures textBuffer[..] == Strncat(old(textBuffer[..]), input, TEXT_BOX_BUFFER_SIZE - 1 - |old(Text())|)
    {
      var textLen := StrLen(textBuffer[..]);
      ghost var before := textBuffer[..];
      var room := TEXT_BOX_BUFFER_SIZE - 1 - textLen;
      var k := 0;
      while k < room && k < |input| && input[k] != NUL
        invariant 0 <= k <= room && k <= |input|
        invariant forall j :: 0 <= j < k ==> input[j] != NUL
        invariant forall j :: textLen <= j < textLen + k ==> textBuffer[j] == input[j - textLen]
        invariant forall j :: 0 <= j < textLen ==> textBuffer[j] == before[j]
        invariant forall j :: textLen + k <= j < TEXT_BOX_BUFFER_SIZE ==> textBuffer[j] == before[j]
      {
        textBuffer[textLen + k] := input[k];
        k := k + 1;
      }
      StrLenAtLeast(input, k);
      if k < room {
        StrLenIs(input, k);
      }
      assert k == Min(StrLen(input), room);
      textBuffer[textLen + k] := NUL;
      assert textBuffer[..] == Strncat(before, input, room);
      StrncatAppends(before, input, room);
    }

    /** The line split of renderTextBox: nLines = len/10 + 1 slices of at most 10 characters. */
    method SplitLines() returns (lines: seq<string>)
      requires Valid()
      ensures lines == Lines(Text())
    {
      var textLen := StrLen(textBuffer[..]);
      var nLines := textLen / TEXT_BOX_MAX_LINE_SIZE + 1;
      if nLines == 1 {
        return [CString(textBuffer[..])];
      }
      ghost var t := Text();
      LinesShape(t);
      lines := [];
      var i := 0;
      while i < nLines
        invariant 0 <= i <= nLines && lines == Lines(t)[..i]
      {
        var start := i * TEXT_BOX_MAX_LINE_SIZE;
        LinesAt(t, i);
        CStringWindow(textBuffer[..], start, TEXT_BOX_MAX_LINE_SIZE);
        assert t[start..Min(start + TEXT_BOX_MAX_LINE_SIZE, textLen)]
            == textBuffer[..][start..Min(start + TEXT_BOX_MAX_LINE_SIZE, textLen)];
        lines := lines + [CString(textBuffer[start..start + TEXT_BOX_MAX_LINE_SIZE])];
        i := i + 1;
      }
    }

    /**
     * The copy loadSavedText makes of a record: strncpy of the whole record,
     * then its last character (delimiter or 20th byte) replaced by NUL.
     */
    method CopyRecord(record: seq<char>)
      requires textBuffer.Length == TEXT_BOX_BUFFER_SIZE && 1 <= |record| <= TEXT_BOX_BUFFER_SIZE
      modifies textBuffer
      ensures Valid() && Text() == RecordPrompt(record)
    {
      StrNCopy(textBuffer, record, |record|);
      textBuffer[|record| - 1] := NUL;
      var m := Min(StrLen(record), |record| - 1);
      StrLenIs(textBuffer[..], m);
      StrLenIs(record[..|record| - 1], m);
      assert textBuffer[..][..m] == record[..|record| - 1][..m];
    }
  }

  /** The text a save record becomes: the record without its last character, up to any NUL. */
  function RecordPrompt(record: seq<char>): string
    requires |record| >= 1
  {
    CString(record[..|record| - 1])
  }

  /** A record ends at the delimiter or when it fills the 20-byte line. */
  predicate EndsRecord(rec: seq<char>)
    requires |rec| >= 1
  {
    |rec| == TEXT_BOX_BUFFER_SIZE || rec[|rec| - 1] == SAVE_FILE_DELIMITER
  }

  /**
   * loadSavedText from byte `pos` on: `line` holds the bytes of the current
   * record, `calls` counts rand() calls so far and `chosen` the prompts set so
   * far. The k-th complete record is taken when roll(k) % fileSize is below
   * the number of bytes read. The scan stops once every slot is set or the
   * file is exhausted; an unfinished last record is dropped.
   */
  function ScanPrompts(file: seq<char>, roll: nat -> nat, nPrompts: nat, pos: nat, line: seq<char>,
                       calls: nat, chosen: seq<string>): seq<string>
    requires pos <= |file| && |line| < TEXT_BOX_BUFFER_SIZE
    decreases |file| - pos
  {
    if |chosen| >= nPrompts || pos == |file| then chosen
    else
      var rec := line + [file[pos]];
      if EndsRecord(rec) then
        var picked := if Picked(roll(calls), |file|, pos + 1) then chosen + [RecordPrompt(rec)] else chosen;
        ScanPrompts(file, roll, nPrompts, pos + 1, [], calls + 1, picked)
      else
        ScanPrompts(file, roll, nPrompts, pos + 1, rec, calls, chosen)
  }

  /** The random selection of a record: rand() % fileSize below the bytes read so far. */
  predicate Picked(draw: nat, fileSize: nat, totalRead: nat)
    requires fileSize > 0
  {
    draw % fileSize < totalRead
  }

  /** The prompts loadSavedText sets, in slot order; an empty file sets none. */
  function SavedPrompts(file: seq<char>, roll: nat -> nat, nPrompts: nat): seq<string>
  {
    if |file| == 0 then [] else ScanPrompts(file, roll, nPrompts, 0, [], 0, [])
  }

  /** Reference split of a save file into complete records, as prompts. */
  function RecordPrompts(file: seq<char>, line: seq<char>): seq<string>
    requires |line| < TEXT_BOX_BUFFER_SIZE
    decreases |file|
  {
    if |file| == 0 then []
    else
      var rec := line + [file[0]];
      if EndsRecord(rec) then [RecordPrompt(rec)] + RecordPrompts(file[1..], [])
      else RecordPrompts(file[1..], rec)
  }

  function Take<T>(s: seq<T>, n: int): seq<T>
  {
    s[..if n < 0 then 0 else Min(n, |s|)]
  }

  /** A prompt shows at most 19 characters and never the delimiter. */
  predicate PromptShaped(p: string)
  {
    |p| < TEXT_BOX_BUFFER_SIZE && NoNul(p) && SAVE_FILE_DELIMITER !in p
  }

  lemma RecordPromptShaped(rec: seq<char>)
    requires 1 <= |rec| <= TEXT_BOX_BUFFER_SIZE
    requires SAVE_FILE_DELIMITER !in rec[..|rec| - 1]
    ensures PromptShaped(RecordPrompt(rec))
  {
    var p := RecordPrompt(rec);
    assert p == rec[..|rec| - 1][..|p|];
    forall c | c in p ensures c != SAVE_FILE_DELIMITER {
      var k :| 0 <= k < |p| && p[k] == c;
      assert rec[..|rec| - 1][k] == c;
    }
  }

  /** The scan never fills more slots than there are, and every prompt is shaped. */
  lemma {:induction false} ScanShape(file: seq<char>, roll: nat -> nat, nPrompts: nat, pos: nat, line: seq<char>,
                                     calls: nat, chosen: seq<string>)
    requires pos <= |file| && |line| < TEXT_BOX_BUFFER_SIZE && |chosen| <= nPrompts
    requires SAVE_FILE_DELIMITER !in line
    requires forall k :: 0 <= k < |chosen| ==> PromptShaped(chosen[k])
    ensures var r := ScanPrompts(file, roll, nPrompts, pos, line, calls, chosen);
      |chosen| <= |r| <= nPrompts && r[..|chosen|] == chosen &&
      forall k :: 0 <= k < |r| ==> PromptShaped(r[k])
    decreases |file| - pos
  {
    if |chosen| < nPrompts && pos < |file| {
      var rec := line + [file[pos]];
      assert rec[..|rec| - 1] == line;
      if EndsRecord(rec) {
        RecordPromptShaped(rec);
        var picked := if Picked(roll(calls), |file|, pos + 1) then chosen + [RecordPrompt(rec)] else chosen;
        ScanShape(file, roll, nPrompts, pos + 1, [], calls + 1, picked);
        var r := ScanPrompts(file, roll, nPrompts, pos + 1, [], calls + 1, picked);
        assert r[..|picked|][..|chosen|] == chosen;
      } else {
        assert SAVE_FILE_DELIMITER !in rec;
        ScanShape(file, roll, nPrompts, pos + 1, rec, calls, chosen);
      }
    }
  }

  /** Whatever rand() returns, the slots get at most nPrompts shaped prompts. */
  lemma SavedPromptsShape(file: seq<char>, roll: nat -> nat, nPrompts: nat)
    ensures |SavedPrompts(file, roll, nPrompts)| <= nPrompts
    ensures forall k :: 0 <= k < |SavedPrompts(file, roll, nPrompts)| ==> PromptShaped(SavedPrompts(file, roll, nPrompts)[k])
  {
    if |file| > 0 {
      ScanShape(file, roll, nPrompts, 0, [], 0, []);
    }
  }

  /**
   * When every rand() draw is 0 every complete record is taken, so the slots
   * receive the file's first records in order.
   */
  lemma {:induction false} ScanTakesEveryRecord(file: seq<char>, roll: nat -> nat, nPrompts: nat, pos: nat,
                                                line: seq<char>, calls: nat, chosen: seq<string>)
    requires pos <= |file| && |line| < TEXT_BOX_BUFFER_SIZE && |chosen| <= nPrompts
    requires forall k: nat :: roll(k) == 0
    ensures ScanPrompts(file, roll, nPrompts, pos, line, calls, chosen)
         == chosen + Take(RecordPrompts(file[pos..], line), nPrompts - |chosen|)
    decreases |file| - pos
  {
    var tail := file[pos..];
    if pos == |file| {
      assert tail == [];
    } else if |chosen| == nPrompts {
    } else {
      var rec := line + [file[pos]];
      assert tail[0] == file[pos] && tail[1..] == file[pos + 1..];
      if EndsRecord(rec) {
        var picked := chosen + [RecordPrompt(rec)];
        assert Picked(roll(calls), |file|, pos + 1) by { assert roll(calls) == 0; }
        assert ScanPrompts(file, roll, nPrompts, pos, line, calls, chosen)
            == ScanPrompts(file, roll, nPrompts, pos + 1, [], calls + 1, picked);
        ScanTakesEveryRecord(file, roll, nPrompts, pos + 1, [], calls + 1, picked);
        var rest := RecordPrompts(file[pos + 1..], []);
        assert RecordPrompts(tail, line) == [RecordPrompt(rec)] + rest;
        TakeCons(RecordPrompt(rec), rest, nPrompts - |chosen|);
      } else {
        assert ScanPrompts(file, roll, nPrompts, pos, line, calls, chosen)
            == ScanPrompts(file, roll, nPrompts, pos + 1, rec, calls, chosen);
        assert RecordPrompts(tail, line) == RecordPrompts(file[pos + 1..], rec);
        ScanTakesEveryRecord(file, roll, nPrompts, pos + 1, rec, calls, chosen);
      }
    }
  }

  lemma TakeCons<T>(x: T, s: seq<T>, n: int)
    requires n >= 1
    ensures Take([x] + s, n) == [x] + Take(s, n - 1)
  {
  }

  lemma SavedPromptsAlwaysPicking(file: seq<char>, roll: nat -> nat, nPrompts: nat)
    requires forall k: nat :: roll(k) == 0
    ensures SavedPrompts(file, roll, nPrompts) == Take(RecordPrompts(file, []), nPrompts)
  {
    if |file| > 0 {
      ScanTakesEveryRecord(file, roll, nPrompts, 0, [], 0, []);
      assert file[0..] == file;
    }
  }

  /** `a` is `b` with some elements left out, the others kept in order. */
  predicate Subseq<T(==)>(a: seq<T>, b: seq<T>)
    decreases |b|
  {
    if |a| == 0 then true
    else if |b| == 0 then false
    else (a[0] == b[0] && Subseq(a[1..], b[1..])) || Subseq(a, b[1..])
  }

  lemma {:induction false} SubseqShorter<T>(a: seq<T>, b: seq<T>)
    requires Subseq(a, b)
    ensures |a| <= |b|
    decreases |b|
  {
    if |a| != 0 {
      if a[0] == b[0] && Subseq(a[1..], b[1..]) {
        SubseqShorter(a[1..], b[1..]);
      } else {
        SubseqShorter(a, b[1..]);
      }
    }
  }

  lemma {:induction false} SubseqMember<T>(a: seq<T>, b: seq<T>, k: nat)
    requires Subseq(a, b) && k < |a|
    ensures a[k] in b
    decreases |b|
  {
    if a[0] == b[0] && Subseq(a[1..], b[1..]) {
      if k > 0 {
        SubseqMember(a[1..], b[1..], k - 1);
        assert a[1..][k - 1] == a[k];
      }
    } else {
      SubseqMember(a, b[1..], k);
    }
  }

  /**
   * Whatever rand() returns, the scan keeps the slots already set and adds
   * complete records of the rest of the file, in file order, skipping some.
   */
  lemma {:induction false} ScanPicksRecords(file: seq<char>, roll: nat -> nat, nPrompts: nat, pos: nat,
                                            line: seq<char>, calls: nat, chosen: seq<string>)
    requires pos <= |file| && |line| < TEXT_BOX_BUFFER_SIZE
    ensures var r := ScanPrompts(file, roll, nPrompts, pos, line, calls, chosen);
      |chosen| <= |r| && r[..|chosen|] == chosen && Subseq(r[|chosen|..], RecordPrompts(file[pos..], line))
    decreases |file| - pos
  {
    var r := ScanPrompts(file, roll, nPrompts, pos, line, calls, chosen);
    if |chosen| >= nPrompts || pos == |file| {
      assert r[|chosen|..] == [];
    } else {
      var tail := file[pos..];
      var rec := line + [file[pos]];
      assert tail[0] == file[pos] && tail[1..] == file[pos + 1..];
      if EndsRecord(rec) {
        var p := RecordPrompt(rec);
        var rest := RecordPrompts(file[pos + 1..], []);
        assert RecordPrompts(tail, line) == [p] + rest;
        if Picked(roll(calls), |file|, pos + 1) {
          var picked := chosen + [p];
          ScanPicksRecords(file, roll, nPrompts, pos + 1, [], calls + 1, picked);
          assert r == ScanPrompts(file, roll, nPrompts, pos + 1, [], calls + 1, picked);
          assert r[..|chosen|] == r[..|picked|][..|chosen|];
          assert r[|chosen|..][0] == p && r[|chosen|..][1..] == r[|picked|..];
        } else {
          ScanPicksRecords(file, roll, nPrompts, pos + 1, [], calls + 1, chosen);
          assert r == ScanPrompts(file, roll, nPrompts, pos + 1, [], calls + 1, chosen);
          assert ([p] + rest)[1..] == rest;
        }
      } else {
        ScanPicksRecords(file, roll, nPrompts, pos + 1, rec, calls, chosen);
        assert r == ScanPrompts(file, roll, nPrompts, pos + 1, rec, calls, chosen);
        assert RecordPrompts(tail, line) == RecordPrompts(file[pos + 1..], rec);
      }
    }
  }

  /**
   * Whatever rand() returns, the boxes receive complete records of the save
   * file, in file order, and never more of them than the file holds.
   */
  lemma SavedPromptsAreRecords(file: seq<char>, roll: nat -> nat, nPrompts: nat)
    ensures Subseq(SavedPrompts(file, roll, nPrompts), RecordPrompts(file, []))
    ensures |SavedPrompts(file, roll, nPrompts)| <= |RecordPrompts(file, [])|
    ensures forall k :: 0 <= k < |SavedPrompts(file, roll, nPrompts)| ==>
      SavedPrompts(file, roll, nPrompts)[k] in RecordPrompts(file, [])
  {
    var r := SavedPrompts(file, roll, nPrompts);
    if |file| > 0 {
      ScanPicksRecords(file, roll, nPrompts, 0, [], 0, []);
      assert file[0..] == file && r[0..] == r;
    }
    SubseqShorter(r, RecordPrompts(file, []));
    forall k | 0 <= k < |r| ensures r[k] in RecordPrompts(file, []) {
      SubseqMember(r, RecordPrompts(file, []), k);
    }
  }

  /**
   * loadSavedText: read the save file byte by byte into a 20-byte line and
   * copy the picked records into the slots, one slot after the other. The
   * file is the save file's bytes from its start; `roll(k)` is the k-th
   * value rand() returns.
   */
  method LoadSavedText(saveFile: seq<char>, roll: nat -> nat, pac: TextBox, blinky: TextBox, inky: TextBox)
    requires pac.textBuffer.Length == blinky.textBuffer.Length == inky.textBuffer.Length == TEXT_BOX_BUFFER_SIZE
    requires pac.textBuffer != blinky.textBuffer && pac.textBuffer != inky.textBuffer && blinky.textBuffer != inky.textBuffer
    modifies pac.textBuffer, blinky.textBuffer, inky.textBuffer
    ensures var chosen := SavedPrompts(saveFile, roll, N_PROMPTS);
      && |chosen| <= N_PROMPTS
      && Slot(pac, chosen, 0) && Slot(blinky, chosen, 1) && Slot(inky, chosen, 2)
      && (|chosen| <= 0 ==> unchanged(pac.textBuffer))
      && (|chosen| <= 1 ==> unchanged(blinky.textBuffer))
      && (|chosen| <= 2 ==> unchanged(inky.textBuffer))
    ensures var records := RecordPrompts(saveFile, []);
      && Subseq(SavedPrompts(saveFile, roll, N_PROMPTS), records)
      && (|records| <= 0 ==> unchanged(pac.textBuffer))
      && (|records| <= 1 ==> unchanged(blinky.textBuffer))
      && (|records| <= 2 ==> unchanged(inky.textBuffer))
  {
    var textLine := new char[TEXT_BOX_BUFFER_SIZE](_ => NUL);
    var fileSize := |saveFile|;
    var totalRead, lineRead, promptsSet, calls := 0, 0, 0, 0;
    if fileSize <= 0 {
      return;
    }
    ghost var chosen: seq<string> := [];
    ghost var line: seq<char> := [];
    while promptsSet < N_PROMPTS && totalRead < fileSize
      invariant 0 <= totalRead <= fileSize && 0 <= lineRead < TEXT_BOX_BUFFER_SIZE
      invariant promptsSet == |chosen| <= N_PROMPTS
      invariant line == textLine[..lineRead]
      invariant ScanPrompts(saveFile, roll, N_PROMPTS, totalRead, line, calls, chosen) == SavedPrompts(saveFile, roll, N_PROMPTS)
      invariant Slot(pac, chosen, 0) && Slot(blinky, chosen, 1) && Slot(inky, chosen, 2)
      invariant promptsSet <= 0 ==> unchanged(pac.textBuffer)
      invariant promptsSet <= 1 ==> unchanged(blinky.textBuffer)
      invariant promptsSet <= 2 ==> unchanged(inky.textBuffer)
      decreases fileSize - totalRead
    {
      textLine[lineRead] := saveFile[totalRead];
      line := line + [saveFile[totalRead]];
      totalRead := totalRead + 1;
      lineRead := lineRead + 1;
      assert textLine[..lineRead] == line;
      if lineRead == TEXT_BOX_BUFFER_SIZE || textLine[lineRead - 1] == SAVE_FILE_DELIMITER {
        if Picked(roll(calls), fileSize, totalRead) {
          FillSlot(textLine[..lineRead], promptsSet, chosen, pac, blinky, inky);
          chosen := chosen + [RecordPrompt(line)];
          promptsSet := promptsSet + 1;
        }
        calls := calls + 1;
        lineRead := 0;
        line := [];
      }
    }
    SavedPromptsShape(saveFile, roll, N_PROMPTS);
    SavedPromptsAreRecords(saveFile, roll, N_PROMPTS);
  }

  /** Copies a record into the next free slot of [pac, blinky, inky]; the other boxes keep their text. */
  method FillSlot(record: seq<char>, k: nat, ghost chosen: seq<string>, pac: TextBox, blinky: TextBox, inky: TextBox)
    requires 1 <= |record| <= TEXT_BOX_BUFFER_SIZE && k == |chosen| < N_PROMPTS
    requires pac.textBuffer.Length == blinky.textBuffer.Length == inky.textBuffer.Length == TEXT_BOX_BUFFER_SIZE
    requires pac.textBuffer != blinky.textBuffer && pac.textBuffer != inky.textBuffer && blinky.textBuffer != inky.textBuffer
    requires Slot(pac, chosen, 0) && Slot(blinky, chosen, 1) && Slot(inky, chosen, 2)
    modifies pac.textBuffer, blinky.textBuffer, inky.textBuffer
    ensures var next := chosen + [RecordPrompt(record)];
      Slot(pac, next, 0) && Slot(blinky, next, 1) && Slot(inky, next, 2)
    ensures |chosen| != 0 ==> unchanged(pac.textBuffer)
    ensures |chosen| != 1 ==> unchanged(blinky.textBuffer)
    ensures |chosen| != 2 ==> unchanged(inky.textBuffer)
  {
    var slot := if k == 0 then pac else if k == 1 then blinky else inky;
    slot.CopyRecord(record);
  }

  /** The number of speech boxes loadSavedText fills: pac's, blinky's and inky's. */
  const N_PROMPTS: nat := 3

  /** Slot k shows the k-th chosen prompt, if there is one. */
  ghost predicate Slot(box: TextBox, chosen: seq<string>, k: nat)
    reads box.textBuffer
  {
    k < |chosen| ==> box.Valid() && box.Text() == chosen[k]
  }

  /**
   * strncat(mem, input, n) on a view of memory starting at the buffer: the
   * first min(strlen(input), n) characters of input go after the C string
   * the buffer holds, followed by a NUL. The view may run past the buffer's
   * 20 cells, so that a write beyond them can be seen.
   */
  function Strncat(mem: seq<char>, input: string, n: nat): (r: seq<char>)
    requires StrLen(mem) + Min(StrLen(input), n) < |mem|
    ensures |r| == |mem|
  {
    var len := StrLen(mem);
    var m := Min(StrLen(input), n);
    seq(|mem|, k requires 0 <= k < |mem| =>
      if len <= k < len + m then input[k - len] else if k == len + m then NUL else mem[k])
  }

  /** strncat appends to the C string the part of the input it copies. */
  lemma StrncatAppends(mem: seq<char>, input: string, n: nat)
    requires StrLen(mem) + Min(StrLen(input), n) < |mem|
    ensures var m := Min(StrLen(input), n);
      && StrLen(Strncat(mem, input, n)) == StrLen(mem) + m
      && CString(Strncat(mem, input, n)) == CString(mem) + input[..m]
      && Strncat(mem, input, n)[StrLen(mem) + m] == NUL
  {
    var r := Strncat(mem, input, n);
    var len := StrLen(mem);
    var m := Min(StrLen(input), n);
    StrLenIs(r, len + m);
    assert r[..len + m] == CString(mem) + input[..m];
  }

  /**
   * handleTextInput as written, on a memory view of more than 20 cells: a
   * text event of 20 - len characters or more fills the buffer's cells up to
   * the last one and stores strncat's NUL in cell 20, the first cell past
   * the buffer, so the buffer itself holds no terminator.
   */
  lemma MultiCharInputOverflows(mem: seq<char>, input: string)
    requires |mem| > TEXT_BOX_BUFFER_SIZE && StrLen(mem) < TEXT_BOX_BUFFER_SIZE - 1
    requires StrLen(input) >= TEXT_BOX_BUFFER_SIZE - StrLen(mem)
    ensures var r := Strncat(mem, input, TEXT_BOX_BUFFER_SIZE - StrLen(mem));
      r[TEXT_BOX_BUFFER_SIZE] == NUL && StrLen(r) == TEXT_BOX_BUFFER_SIZE && NoNul(r[..TEXT_BOX_BUFFER_SIZE])
  {
    var r := Strncat(mem, input, TEXT_BOX_BUFFER_SIZE - StrLen(mem));
    StrncatAppends(mem, input, TEXT_BOX_BUFFER_SIZE - StrLen(mem));
    assert forall k :: 0 <= k < TEXT_BOX_BUFFER_SIZE ==> r[..TEXT_BOX_BUFFER_SIZE][k] == r[k];
  }

  /** For instance "ab" typed at once into an 18-character text: 'a', 'b' in cells 18 and 19, the NUL in cell 20. */
  lemma TwoCharsOverflowEighteen(mem: seq<char>)
    requires |mem| > TEXT_BOX_BUFFER_SIZE && StrLen(mem) == 18
    ensures var r := Strncat(mem, "ab", TEXT_BOX_BUFFER_SIZE - 18);
      r[18] == 'a' && r[19] == 'b' && r[TEXT_BOX_BUFFER_SIZE] == NUL
  {
    StrLenIs("ab", 2);
  }

  /** One character at a time, the bound as written and the corrected one write the same cells, inside the buffer. */
  lemma OneCharInputFits(mem: seq<char>, input: string)
    requires |mem| >= TEXT_BOX_BUFFER_SIZE && StrLen(mem) < TEXT_BOX_BUFFER_SIZE - 1 && StrLen(input) == 1
    ensures Strncat(mem, input, TEXT_BOX_BUFFER_SIZE - StrLen(mem)) == Strncat(mem, input, TEXT_BOX_BUFFER_SIZE - 1 - StrLen(mem))
    ensures StrLen(Strncat(mem, input, TEXT_BOX_BUFFER_SIZE - StrLen(mem))) == StrLen(mem) + 1 < TEXT_BOX_BUFFER_SIZE
  {
    StrncatAppends(mem, input, TEXT_BOX_BUFFER_SIZE - StrLen(mem));
  }

  /**
   * loadTextBox as written, on a memory view of more than 20 cells: the
   * length is clamped to 20, that many characters are strncpy'd and the
   * NUL is stored at the clamped length.
   */
  function LoadTextBoxAsWritten(mem: seq<char>, defaultText: string): (r: seq<char>)
    requires |mem| > TEXT_BOX_BUFFER_SIZE
    ensures |r| == |mem|
  {
    var textLen := Min(StrLen(defaultText), TEXT_BOX_BUFFER_SIZE);
    Strncpy(mem, defaultText, textLen)[textLen := NUL]
  }

  /**
   * A default text of 20 characters or more fills all 20 cells with its
   * first characters and puts the NUL in cell 20, past the buffer.
   */
  lemma LoadTextBoxWritesPastBuffer(mem: seq<char>, defaultText: string)
    requires |mem| > TEXT_BOX_BUFFER_SIZE && StrLen(defaultText) >= TEXT_BOX_BUFFER_SIZE
    ensures var r := LoadTextBoxAsWritten(mem, defaultText);
      && r[TEXT_BOX_BUFFER_SIZE] == NUL
      && r[..TEXT_BOX_BUFFER_SIZE] == defaultText[..TEXT_BOX_BUFFER_SIZE]
      && StrLen(r) == TEXT_BOX_BUFFER_SIZE
  {
    var r := LoadTextBoxAsWritten(mem, defaultText);
    assert forall k :: 0 <= k < TEXT_BOX_BUFFER_SIZE ==> r[k] == defaultText[k];
    StrLenIs(r, TEXT_BOX_BUFFER_SIZE);
  }

  /** A default text that fits reads back the same from the code as written and from the corrected constructor. */
  lemma LoadTextBoxFixAgrees(mem: seq<char>, defaultText: string)
    requires |mem| > TEXT_BOX_BUFFER_SIZE && StrLen(defaultText) < TEXT_BOX_BUFFER_SIZE
    ensures CString(LoadTextBoxAsWritten(mem, defaultText)) == Clipped(defaultText)
  {
    var r := LoadTextBoxAsWritten(mem, defaultText);
    var n := StrLen(defaultText);
    assert forall k :: 0 <= k < n ==> r[k] == defaultText[k];
    StrLenIs(r, n);
  }
}
