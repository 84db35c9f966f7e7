/**
 persistence.c as it runs: buffers filled at offsets, loops over planes, and
 the temporary-file protocol that replaces the state file.
 */
module PersistenceDriver {
  import opened Common
  import opened CoarseReference
  import opened Persistence

  // ------------------------------------------------------------ Filling a buffer

  /** goodix_milan_write_u16. */
  method PutWord(a: array<Byte>, offset: nat, x: nat)
    requires offset + 2 <= a.Length && x < U16
    modifies a
    ensures a[..offset + 2] == old(a[..offset]) + Bytes2(x)
    ensures forall i | offset + 2 <= i < a.Length :: a[i] == old(a[i])
  {
    a[offset] := x % 0x100;
    a[offset + 1] := x / 0x100;
  }

  /** goodix_milan_write_u32. */
  method PutLong(a: array<Byte>, offset: nat, x: nat)
    requires offset + 4 <= a.Length && x < U32
    modifies a
    ensures a[..offset + 4] == old(a[..offset]) + Bytes4(x)
    ensures forall i | offset + 4 <= i < a.Length :: a[i] == old(a[i])
  {
    var b := Bytes4(x);
    hide Bytes4;
    PutBytes(a, offset, b);
  }

  /** A copy into the buffer. */
  method PutBytes(a: array<Byte>, offset: nat, bytes: seq<Byte>)
    requires offset + |bytes| <= a.Length
    modifies a
    ensures a[..offset + |bytes|] == old(a[..offset]) + bytes
    ensures forall i | offset + |bytes| <= i < a.Length :: a[i] == old(a[i])
  {
    var i := 0;
    while i < |bytes|
      invariant 0 <= i <= |bytes|
      invariant a[..offset + i] == old(a[..offset]) + bytes[..i]
      invariant forall j | offset + i <= j < a.Length :: a[j] == old(a[j])
    {
      ghost var before := a[..];
      a[offset + i] := bytes[i];
      assert a[..offset + i] == before[..offset + i];
      assert a[..offset + i + 1] == a[..offset + i] + [bytes[i]];
      i := i + 1;
    }
    assert bytes[..|bytes|] == bytes;
  }

  lemma OneMoreWord(words: seq<Word>, i: nat)
    requires i < |words|
    ensures Packed(words[..i + 1]) == Packed(words[..i]) + Bytes2(words[i])
  {
  }

  /** The loop over a word plane. */
  method PutWords(a: array<Byte>, offset: nat, words: seq<Word>)
    requires offset + 2 * |words| <= a.Length
    modifies a
    ensures a[..offset + 2 * |words|] == old(a[..offset]) + Packed(words)
    ensures forall i | offset + 2 * |words| <= i < a.Length :: a[i] == old(a[i])
  {
    hide Packed, Bytes2;
    assert Packed(words[..0]) == [];
    var i := 0;
    while i < |words|
      invariant 0 <= i <= |words|
      invariant a[..offset + 2 * i] == old(a[..offset]) + Packed(words[..i])
      invariant forall j | offset + 2 * i <= j < a.Length :: a[j] == old(a[j])
    {
      OneMoreWord(words, i);
      PutWord(a, offset + 2 * i, words[i]);
      i := i + 1;
    }
    assert words[..|words|] == words;
  }

  /** goodix_milan_state_header. */
  method PutHeader(a: array<Byte>, d: Device, sampleCount: nat)
    requires a.Length == FILE_SIZE && sampleCount < U32
    modifies a
    ensures a[..HEADER_SIZE] == Header(d, sampleCount)
    ensures forall i | HEADER_SIZE <= i < a.Length :: a[i] == old(a[i])
  {
    hide Bytes2, Bytes4;
    PutBytes(a, 0, MAGIC);
    PutLong(a, 8, 2);
    PutLong(a, 12, HEADER_SIZE);
    PutWord(a, 16, d.subtype);
    PutWord(a, 18, ROWS);
    PutWord(a, 20, COLUMNS);
    PutWord(a, 22, 2);
    PutLong(a, 24, sampleCount);
    PutLong(a, 28, PAYLOAD_SIZE);
    PutBytes(a, 32, d.identity);
  }

  lemma NoWords()
    ensures Packed([]) == []
  {
  }

  lemma StoredWord(input: seq<Word>, row: nat, column: nat)
    requires |input| == PIXELS && row < COARSE_ROWS && column < COARSE_COLUMNS
    ensures row * COARSE_COLUMNS + column < COARSE_PIXELS
    ensures Stored(input)[row * COARSE_COLUMNS + column] == StoredAt(input, row, column)
  {
    hide StoredAt;
    Grid.IndexInPlane(row, column, COARSE_ROWS, COARSE_COLUMNS);
  }

  /** The first k packed words stand in the buffer behind what was there before. */
  ghost predicate Written(a: array<Byte>, offset: nat, before: seq<Byte>, packed: seq<Word>, k: nat)
    reads a
  {
    k <= |packed| && offset + 2 * k <= a.Length && a[..offset + 2 * k] == before + Packed(packed[..k])
  }

  method PutNext(a: array<Byte>, offset: nat, ghost before: seq<Byte>, ghost packed: seq<Word>, k: nat, w: Word)
    requires k < |packed| && packed[k] == w && offset + 2 * |packed| <= a.Length && Written(a, offset, before, packed, k)
    modifies a
    ensures Written(a, offset, before, packed, k + 1)
  {
    hide Packed, Bytes2;
    OneMoreWord(packed, k);
    PutWord(a, offset + 2 * k, w);
  }

  /** goodix_milan_store_reference. */
  method PutReference(a: array<Byte>, offset: nat, input: seq<Word>)
    requires |input| == PIXELS && offset + 2 * COARSE_PIXELS <= a.Length
    modifies a
    ensures a[..offset + 2 * COARSE_PIXELS] == old(a[..offset]) + Packed(Stored(input))
  {
    hide StoredAt, Packed, Stored;
    ghost var before, packed := a[..offset], Stored(input);
    assert packed[..0] == [];
    NoWords();
    assert Written(a, offset, before, packed, 0);
    var row := 0;
    while row < COARSE_ROWS
      invariant 0 <= row <= COARSE_ROWS
      invariant Written(a, offset, before, packed, row * COARSE_COLUMNS)
    {
      var column := 0;
      while column < COARSE_COLUMNS
        invariant 0 <= column <= COARSE_COLUMNS
        invariant Written(a, offset, before, packed, row * COARSE_COLUMNS + column)
      {
        hide Written;
        StoredWord(input, row, column);
        PutNext(a, offset, before, packed, row * COARSE_COLUMNS + column, StoredAt(input, row, column));
        column := column + 1;
      }
      row := row + 1;
    }
    assert packed[..COARSE_PIXELS] == packed;
  }

  // ------------------------------------------------------------ Checking

  method PlaneAtMost(bytes: seq<Byte>, bound: nat) returns (ok: bool)
    ensures ok <==> AtMost(bytes, bound)
  {
    var i := 0;
    while i < |bytes|
      invariant 0 <= i <= |bytes|
      invariant AtMost(bytes[..i], bound)
    {
      if bytes[i] > bound { return false; }
      assert bytes[..i + 1] == bytes[..i] + [bytes[i]];
      i := i + 1;
    }
    assert bytes[..|bytes|] == bytes;
    ok := true;
  }

  /** The single loop over both age planes. */
  method AgesAtMost(component: seq<Byte>, support: seq<Byte>) returns (ok: bool)
    requires |component| == |support|
    ensures ok <==> AtMost(component, 5) && AtMost(support, 50)
  {
    var i := 0;
    while i < |component|
      invariant 0 <= i <= |component|
      invariant forall j | 0 <= j < i :: component[j] <= 5 && support[j] <= 50
    {
      if component[i] > 5 || support[i] > 50 { return false; }
      i := i + 1;
    }
    ok := true;
  }

  /** goodix_milan_state_valid. */
  method CheckState(file: seq<Byte>, d: Device, sha: seq<Byte> -> Digest) returns (ok: bool)
    ensures ok <==> Valid(file, d, sha)
  {
    hide Read2, Read4, AtMost;
    if |file| != FILE_SIZE { return false; }
    if !HeaderValid(file, d) || file[RING_COUNT] > 3 || file[COMPONENT_COUNT] > 5 || file[REFERENCE_COUNT] > 50 {
      return false;
    }
    ok := PlaneAtMost(file[PLANES..COMPONENT_AGES], 2);
    if !ok { return; }
    ok := AgesAtMost(file[COMPONENT_AGES..SUPPORT_AGES], file[SUPPORT_AGES..REFERENCE]);
    if !ok { return; }
    ok := sha(file[..DIGEST]) == file[DIGEST..];
  }

  // ------------------------------------------------------------ Saving and restoring

  /** goodix_milan_persistence_save up to the write: nothing, or the contents. */
  method Save(d: Device, s: State, sha: seq<Byte> -> Digest) returns (contents: Option<seq<Byte>>)
    requires Shaped(s)
    ensures contents.Some? <==> Saveable(s)
    ensures contents.Some? ==> contents.value == Encoded(d, s, sha)
  {
    hide AtMost;
    if s.sampleCount > 400 { return None; }
    if s.persistence.count > 3 || s.updateCount > 5 || s.historyCount > 50 { return None; }
    var planesFit := PlaneAtMost(s.persistence.planes, 2);
    if !planesFit { return None; }
    var agesFit := AgesAtMost(s.componentAges, s.referenceAges);
    if !agesFit { return None; }
    var a := Fill(d, s);
    PutBytes(a, DIGEST, sha(a[..DIGEST]));
    contents := Some(a[..]);
    assert a[..FILE_SIZE] == a[..];
  }

  method Fill(d: Device, s: State) returns (a: array<Byte>)
    requires Shaped(s) && Saveable(s)
    ensures fresh(a) && a.Length == FILE_SIZE && a[..DIGEST] == Body(d, s)
  {
    hide AtMost, Header, Packed, Stored;
    a := new Byte[FILE_SIZE](_ => 0);
    PutHeader(a, d, s.sampleCount);
    PutWords(a, CALIBRATION, s.calibration);
    ghost var before := a[..RING_COUNT];
    a[RING_COUNT] := s.persistence.count;
    a[COMPONENT_COUNT] := s.updateCount;
    a[REFERENCE_COUNT] := s.historyCount;
    assert a[..RING_COUNT] == before;
    assert a[..PLANES] == before + [s.persistence.count, s.updateCount, s.historyCount];
    PutBytes(a, PLANES, s.persistence.planes);
    PutBytes(a, COMPONENT_AGES, s.componentAges);
    PutBytes(a, SUPPORT_AGES, s.referenceAges);
    PutReference(a, REFERENCE, s.reference);
  }

  /** The contents a setup save starts from when no file can be used. */
  method Defaults(d: Device, sha: seq<Byte> -> Digest) returns (contents: seq<Byte>)
    ensures contents == Encoded(d, Fresh(), sha)
  {
    hide Header, Packed, Encoded;
    var a := new Byte[FILE_SIZE](_ => 0);
    PutHeader(a, d, 0);
    assert a[HEADER_SIZE..] == seq(FILE_SIZE - HEADER_SIZE, _ => 0);
    PutWords(a, CALIBRATION, seq(PIXELS, _ => 0x2000));
    assert a[RING_COUNT..] == seq(FILE_SIZE - RING_COUNT, _ => 0);
    assert a[..DIGEST] == a[..RING_COUNT] + a[RING_COUNT..][..DIGEST - RING_COUNT];
    assert a[..DIGEST] == DefaultBody(d);
    PutBytes(a, DIGEST, sha(a[..DIGEST]));
    contents := a[..];
    assert a[..FILE_SIZE] == a[..];
    DefaultsAreFresh(d, sha);
  }

  /** The state a generation owns. */
  class Generation {
    var state: State

    constructor (state: State)
      ensures this.state == state
    {
      this.state := state;
    }

    /** goodix_milan_persistence_restore on the bytes of the state file. */
    method Restore(file: Option<seq<Byte>>, d: Device, sha: seq<Byte> -> Digest) returns (retained: seq<Byte>)
      modifies this
      ensures Valid(retained, d, sha)
      ensures file.Some? && Valid(file.value, d, sha) ==> retained == file.value && state == Decoded(file.value)
      ensures !(file.Some? && Valid(file.value, d, sha)) ==> retained == Encoded(d, Fresh(), sha) && state == old(state)
    {
      hide Encoded, Valid, Decoded;
      var usable := false;
      if file.Some? {
        usable := CheckState(file.value, d, sha);
      }
      if usable {
        Adopt(file.value, d, sha);
        retained := file.value;
      } else {
        retained := Defaults(d, sha);
        SaveRestore(d, Fresh(), sha);
      }
    }

    /** The field-by-field copy from a validated file. */
    method Adopt(file: seq<Byte>, ghost d: Device, ghost sha: seq<Byte> -> Digest)
      requires Valid(file, d, sha)
      modifies this
      ensures state == Decoded(file)
    {
      hide Restored, Read2, Read4;
      assert |file| == FILE_SIZE;
      state := state.(maskThreshold := 60, maskAverage := 60, sampleCount := Read4(file, 24));
      var words: seq<Word> := [];
      while |words| < PIXELS
        invariant |words| <= PIXELS
        invariant words == Words(file, CALIBRATION, PIXELS)[..|words|]
        invariant state == old(state).(maskThreshold := 60, maskAverage := 60, sampleCount := Read4(file, 24))
      {
        words := words + [Read2(file, CALIBRATION + 2 * |words|)];
      }
      var ring := Ring(file[RING_COUNT], file[PLANES..COMPONENT_AGES]);
      state := state.(calibration := words, classification := ring, persistence := ring,
                      updateCount := file[COMPONENT_COUNT], historyCount := file[REFERENCE_COUNT],
                      componentAges := file[COMPONENT_AGES..SUPPORT_AGES], referenceAges := file[SUPPORT_AGES..REFERENCE]);
      var plane := new Word[PIXELS](_ => 0);
      RestoreReference(Words(file, REFERENCE, COARSE_PIXELS), plane);
      state := state.(reference := plane[..]);
    }
  }

  // ------------------------------------------------------------ Replacing the file

  /** How a system call ends; a write may also take part of its bytes. */
  datatype Reply = Fine | Partial(taken: nat) | Interrupted | Fault

  /** Returned, or stopped dead for want of a further reply. */
  datatype End = Replaced | Failed | Stopped

  type Files = map<string, seq<Byte>>

  /** Apart from the temporary, everything is as before, or only the state file
      differs and holds the complete new contents. */
  predicate Untorn(now: Files, before: Files, name: string, temporary: string, contents: seq<Byte>) {
    now - {temporary} == before - {temporary} || now - {temporary} == (before - {temporary})[name := contents]
  }

  class Directory {
    var files: Files
    var replies: seq<Reply>
    ghost var seen: seq<Files>

    constructor (files: Files, replies: seq<Reply>)
      ensures this.files == files && this.replies == replies && seen == []
    {
      this.files, this.replies, seen := files, replies, [];
    }

    method Record()
      modifies this`seen
      ensures seen == old(seen) + [files]
    {
      seen := seen + [files];
    }

    /** One call: whether a reply was left, and which. */
    method Next() returns (reply: Option<Reply>)
      modifies this`replies
      ensures reply.Some? ==> |replies| < |old(replies)|
      ensures reply.None? ==> replies == old(replies)
    {
      if replies == [] { return None; }
      reply := Some(replies[0]);
      replies := replies[1..];
    }

    /** A call that only succeeds or fails. */
    method Call() returns (end: Option<bool>)
      modifies this`replies
    {
      var reply := Next();
      end := if reply.None? then None else Some(reply.value.Fine?);
    }

    /** The write loop, which resumes after partial and interrupted writes. */
    method Write(temporary: string, contents: seq<Byte>) returns (end: Option<bool>)
      requires temporary in files && files[temporary] == []
      modifies this
      ensures temporary in files && files - {temporary} == old(files) - {temporary}
      ensures end == Some(true) ==> files[temporary] == contents
      ensures |seen| >= |old(seen)| && seen[..|old(seen)|] == old(seen)
      ensures forall m | m in seen[|old(seen)|..] :: m - {temporary} == old(files) - {temporary}
    {
      var offset := 0;
      while offset < |contents|
        invariant 0 <= offset <= |contents|
        invariant temporary in files && files[temporary] == contents[..offset]
        invariant files - {temporary} == old(files) - {temporary}
        invariant |seen| >= |old(seen)| && seen[..|old(seen)|] == old(seen)
        invariant forall m | m in seen[|old(seen)|..] :: m - {temporary} == old(files) - {temporary}
        decreases |replies|
      {
        var reply := Next();
        if reply.None? { return None; }
        if reply.value.Fault? || reply.value == Partial(0) { return Some(false); }
        var taken := match reply.value
          case Interrupted => 0
          case Partial(n) => Min(n, |contents| - offset)
          case _ => |contents| - offset;
        offset := offset + taken;
        files := files[temporary := contents[..offset]];
        Record();
      }
      end := Some(true);
    }

    /** The failure path: close and, if the call works, remove the temporary. */
    method Discard(temporary: string) returns (end: End)
      requires temporary in files
      modifies this
      ensures !end.Replaced?
      ensures end.Failed? || files == old(files)
      ensures files - {temporary} == old(files) - {temporary}
      ensures seen == old(seen) || seen == old(seen) + [files]
    {
      var removed := Call();
      if removed.None? { return Stopped; }
      if removed.value {
        files := files - {temporary};
        Record();
      }
      end := Failed;
    }

    /** From the closed temporary to the durable directory. */
    method Publish(name: string, temporary: string, contents: seq<Byte>) returns (end: End)
      requires name != temporary && temporary in files && files[temporary] == contents
      modifies this
      ensures end.Replaced? ==> files == (old(files) - {temporary})[name := contents]
      ensures seen == old(seen) || seen == old(seen) + [files]
      ensures files - {temporary} == old(files) - {temporary} || files == (old(files) - {temporary})[name := contents]
    {
      var renamed := Call();
      if renamed.None? { return Stopped; }
      if !renamed.value {
        end := Discard(temporary);
        return;
      }
      files := (files - {temporary})[name := contents];
      Record();
      var durable := Call();
      if durable.None? { return Stopped; }
      if !durable.value { return Failed; }
      var closed := Call();
      if closed.None? { return Stopped; }
      end := if closed.value then Replaced else Failed;
    }

    /** Filling the temporary and making its contents durable. */
    method Prepare(temporary: string, contents: seq<Byte>) returns (end: Option<bool>)
      requires temporary in files && files[temporary] == []
      modifies this
      ensures temporary in files && files - {temporary} == old(files) - {temporary}
      ensures end == Some(true) ==> files[temporary] == contents
      ensures |seen| >= |old(seen)| && seen[..|old(seen)|] == old(seen)
      ensures forall m | m in seen[|old(seen)|..] :: m - {temporary} == old(files) - {temporary}
    {
      end := Call();
      if end != Some(true) { return; }
      end := Write(temporary, contents);
      if end != Some(true) { return; }
      end := Call();
      if end != Some(true) { return; }
      end := Call();
    }

    /** goodix_milan_state_write once the directory is open. */
    method StateWrite(name: string, temporary: string, contents: seq<Byte>) returns (end: End)
      requires name != temporary
      modifies this
      ensures |seen| >= |old(seen)|
      ensures forall m | m in seen[|old(seen)|..] :: Untorn(m, old(files), name, temporary, contents)
      ensures Untorn(files, old(files), name, temporary, contents)
      ensures end.Replaced? ==> files == (old(files) - {temporary})[name := contents]
      ensures temporary in old(files) ==> files == old(files)
    {
      var made := Call();
      if made.None? { return Stopped; }
      if !made.value || temporary in files { return Failed; }
      files := files[temporary := []];
      Record();
      var prepared := Prepare(temporary, contents);
      if prepared.None? { return Stopped; }
      if prepared.value {
        end := Publish(name, temporary, contents);
      } else {
        end := Discard(temporary);
      }
    }
  }
}
