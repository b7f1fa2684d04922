/** The recorder in place, over a file modelled as the sequence of its lines. */
module Recording {
  import opened Prelude
  import opened RecordLog
  import L = RecordLog

  /** The file's lines; they survive the recorder. */
  class LogFile {
    var lines: seq<string>

    constructor (lines: seq<string>)
      ensures this.lines == lines
    {
      this.lines := lines;
    }
  }

  class Store {
    var entries: seq<Entry>
    var dedup: map<string, bool>

    ghost function View(): Memory
      reads this
    {
      Memory(entries, dedup.Keys)
    }

    /** Only `true` is ever stored under a fingerprint. */
    ghost predicate Valid()
      reads this
    {
      forall fp :: fp in dedup ==> dedup[fp]
    }

    constructor ()
      ensures Valid() && View() == BLANK
    {
      entries, dedup := [], map[];
    }

    method Mark(fp: string)
      requires Valid()
      modifies this`dedup
      ensures Valid() && dedup.Keys == old(dedup.Keys) + {fp}
    {
      dedup := dedup[fp := true];
    }

    /** Reading a fresh store's memory back from the file, line by line. */
    method Resume(c: Codec, file: LogFile)
      requires Valid() && View() == BLANK
      modifies this
      ensures Valid() && View() == Resumed(c, file.lines)
    {
      hide Fingerprint;
      var i := 0;
      while i < |file.lines|
        invariant i <= |file.lines| && Valid()
        invariant View() == Resumed(c, file.lines[..i])
      {
        assert file.lines[..i + 1][..i] == file.lines[..i];
        var e := c.decode(file.lines[i]);
        i := i + 1;
        if e.None? {
          continue;
        }
        FingerprintsSnoc(entries, e.value);
        entries := entries + [e.value];
        Mark(Fingerprint(e.value));
      }
      assert file.lines[..|file.lines|] == file.lines;
    }

    method Record(fp: string, e: Entry)
      requires Valid() && fp == Fingerprint(e)
      modifies this
      ensures Valid() && View() == Recorded(old(View()), e)
    {
      hide Fingerprint;
      entries := entries + [e];
      Mark(fp);
    }

    method Seen(fp: string) returns (s: bool)
      requires Valid()
      ensures s <==> fp in View().seen
    {
      return fp in dedup && dedup[fp];
    }
  }

  class Recorder {
    const codec: Codec
    const file: LogFile
    const store: Store
    var closed: bool
    var openFiles: int

    ghost function View(): Log
      reads this, file, store
    {
      Log(file.lines, store.View(), closed)
    }

    constructor (codec: Codec, file: LogFile)
      ensures this.file == file && this.codec == codec && fresh(store) && store.Valid() && openFiles == 0
      ensures View() == Log(file.lines, Resumed(codec, file.lines), false)
    {
      this.codec, this.file := codec, file;
      store := new Store();
      closed, openFiles := false, 0;
      new;
      store.Resume(codec, file);
    }

    method Append(e: Entry) returns (r: Result<string>)
      requires store.Valid()
      modifies this, file, store
      ensures store.Valid() && openFiles == old(openFiles)
      ensures (View(), r) == L.Append(codec, old(View()), e)
      ensures old(closed) ==> r.Err? && View() == old(View())
      ensures r.Ok? && Fingerprint(e) !in old(store.View().seen) ==>
                file.lines == old(file.lines) + [codec.encode(e)] && store.entries == old(store.entries) + [e]
    {
      hide Fingerprint;
      if e.kind == "" && e.vessel == "" && e.message == "" {
        return Err(EmptyEntry);
      }
      if closed {
        return Err(RecorderClosed);
      }
      var fp := Fingerprint(e);
      var seen := store.Seen(fp);
      if seen {
        return Ok(fp);
      }
      openFiles := openFiles + 1;
      file.lines := file.lines + [codec.encode(e)];
      store.Record(fp, e);
      openFiles := openFiles - 1;
      return Ok(fp);
    }

    method Lease() returns (e: Option<Error>)
      modifies this
      ensures closed == old(closed)
      ensures if closed then e == Some(RecorderClosed) && openFiles == old(openFiles)
              else e == None && openFiles == old(openFiles) + 1
    {
      if closed {
        return Some(RecorderClosed);
      }
      openFiles := openFiles + 1;
      return None;
    }

    method Release()
      modifies this
      ensures closed == old(closed) && openFiles == old(openFiles) - 1
    {
      openFiles := openFiles - 1;
    }

    method Close() returns (e: Option<Error>)
      modifies this
      ensures closed && openFiles == old(openFiles)
      ensures e == if old(closed) then Some(RecorderClosed) else None
    {
      if closed {
        return Some(RecorderClosed);
      }
      closed := true;
      return None;
    }
  }

  /** A recorder opened on the file of another, whose memory is in step with that file, remembers
      exactly what the first one did. */
  method Reopen(r: Recorder) returns (next: Recorder)
    requires r.store.Valid() && InStep(r.codec, r.View())
    ensures fresh(next) && next.file == r.file
    ensures next.store.View() == r.store.View() && InStep(next.codec, next.View())
  {
    next := new Recorder(r.codec, r.file);
  }
}
