/** The store of worker sources, one file per name. */
module CodeStore {
  import opened Wrappers

  /** Uploaded bytes: only those that decode as text can be read back as a source. */
  datatype Code = Text(source: string) | Binary(bytes: seq<bv8>)

  datatype StoreError = InvalidName(name: string) | IoError

  type Files = map<string, Code>

  predicate AllowedChar(c: char) {
    '0' <= c <= '9' || 'A' <= c <= 'Z' || 'a' <= c <= 'z' || c == '-' || c == '.'
  }

  predicate IsValidName(name: string) {
    name != "" && forall i :: 0 <= i < |name| ==> AllowedChar(name[i])
  }

  /** Digits, capital and small letters, the hyphen and the full stop, by their codes. */
  lemma AllowedCharCodes(c: char)
    ensures AllowedChar(c) <==>
      var n := c as int; 48 <= n <= 57 || 65 <= n <= 90 || 97 <= n <= 122 || n == 45 || n == 46
  {
  }

  /** `written` says whether the file system took the bytes. */
  predicate Accepted(name: string, written: bool) {
    IsValidName(name) && written
  }

  function Upload(files: Files, name: string, code: Code, written: bool): (Files, Option<StoreError>) {
    if !IsValidName(name) then (files, Some(InvalidName(name)))
    else if !written then (files, Some(IoError))
    else (files[name := code], None)
  }

  function Remove(files: Files, name: string): Files {
    files - {name}
  }

  function Read(files: Files, name: string): Option<string> {
    if name in files && files[name].Text? then Some(files[name].source) else None
  }

  // The contents of the store after a sequence of operations.

  datatype StoreOp = Uploading(name: string, code: Code, written: bool) | Removing(name: string) | Other

  function ApplyOp(files: Files, op: StoreOp): Files {
    match op
    case Uploading(name, code, written) => Upload(files, name, code, written).0
    case Removing(name) => Remove(files, name)
    case Other => files
  }

  function After(initial: Files, ops: seq<StoreOp>): Files {
    if ops == [] then initial else ApplyOp(After(initial, ops[..|ops| - 1]), ops[|ops| - 1])
  }

  /** The operation decides what `name` holds from then on. */
  predicate Touches(op: StoreOp, name: string) {
    match op
    case Uploading(n, _, written) => n == name && Accepted(n, written)
    case Removing(n) => n == name
    case Other => false
  }

  /** Operation `i` is the last one to touch `name`. */
  ghost predicate LastTouch(ops: seq<StoreOp>, i: nat, name: string) {
    i < |ops| && Touches(ops[i], name) && forall j :: i < j < |ops| ==> !Touches(ops[j], name)
  }

  ghost predicate Untouched(ops: seq<StoreOp>, name: string) {
    forall i :: 0 <= i < |ops| ==> !Touches(ops[i], name)
  }

  lemma {:induction false} LastTouchDecides(initial: Files, ops: seq<StoreOp>, i: nat, name: string)
    requires LastTouch(ops, i, name)
    ensures ops[i].Uploading? ==> name in After(initial, ops) && After(initial, ops)[name] == ops[i].code
    ensures !ops[i].Uploading? ==> name !in After(initial, ops)
  {
    var n := |ops| - 1;
    if i < n {
      assert !Touches(ops[n], name);
      assert ops[..n][i] == ops[i];
      LastTouchDecides(initial, ops[..n], i, name);
    }
  }

  lemma {:induction false} UntouchedIsInitial(initial: Files, ops: seq<StoreOp>, name: string)
    requires Untouched(ops, name)
    ensures Read(After(initial, ops), name) == Read(initial, name)
  {
    if ops != [] {
      var n := |ops| - 1;
      assert !Touches(ops[n], name);
      UntouchedIsInitial(initial, ops[..n], name);
    }
  }

  lemma {:induction false} LastTouchExists(ops: seq<StoreOp>, name: string)
    ensures Untouched(ops, name) || exists i: nat :: LastTouch(ops, i, name)
  {
    if ops != [] {
      var n := |ops| - 1;
      if Touches(ops[n], name) {
        assert LastTouch(ops, n, name);
      } else {
        LastTouchExists(ops[..n], name);
        if i: nat :| LastTouch(ops[..n], i, name) {
          assert LastTouch(ops, i, name);
        }
      }
    }
  }

  /** A source is read exactly when the last operation that touched the name was a successful upload of it, or none
      did and it was there from the start: rejected uploads and operations on other names change nothing. */
  lemma {:induction false} ReadIsLastUpload(initial: Files, ops: seq<StoreOp>, name: string, source: string)
    ensures Read(After(initial, ops), name) == Some(source) <==>
      || (exists i: nat :: LastTouch(ops, i, name) && ops[i].Uploading? && ops[i].code == Text(source))
      || (Untouched(ops, name) && Read(initial, name) == Some(source))
  {
    LastTouchExists(ops, name);
    if Untouched(ops, name) {
      UntouchedIsInitial(initial, ops, name);
    } else {
      var i: nat :| LastTouch(ops, i, name);
      LastTouchDecides(initial, ops, i, name);
      forall j: nat | LastTouch(ops, j, name) ensures j == i {}
    }
  }

  /** The store as the serverless task holds it, with what it was opened on and what happened to it since. */
  class Store {
    var files: Files
    ghost const initial: Files
    ghost var history: seq<StoreOp>

    ghost predicate Valid()
      reads this
    {
      files == After(initial, history)
    }

    constructor (files: Files)
      ensures Valid() && initial == files && history == []
    {
      this.files, initial, history := files, files, [];
    }

    method UploadWorkerCode(name: string, code: Code, written: bool) returns (err: Option<StoreError>)
      requires Valid()
      modifies this
      ensures Valid() && history == old(history) + [Uploading(name, code, written)]
      ensures (files, err) == Upload(old(files), name, code, written)
      ensures err.None? <==> Accepted(name, written)
      ensures err.Some? ==> files == old(files)
    {
      history := history + [Uploading(name, code, written)];
      AfterSnoc(initial, old(history), Uploading(name, code, written));
      if !IsValidName(name) {
        return Some(InvalidName(name));
      }
      if !written {
        return Some(IoError);
      }
      files := files[name := code];
      err := None;
    }

    /** From now on the name has no code, until it is uploaded again; every other name keeps what it has. */
    method RemoveWorkerCode(name: string)
      requires Valid()
      modifies this
      ensures Valid() && history == old(history) + [Removing(name)]
      ensures LastTouch(history, |old(history)|, name) && Read(files, name).None?
      ensures forall other :: other != name ==> Read(files, other) == Read(old(files), other)
      ensures files == Remove(old(files), name)
    {
      history := history + [Removing(name)];
      AfterSnoc(initial, old(history), Removing(name));
      files := files - {name};
    }

    /** The source is that of the last operation that touched the name, if it was a successful upload of text, or of the
        file that was there from the start. */
    method GetWorkerCode(name: string) returns (source: Option<string>)
      requires Valid()
      ensures source == Read(files, name)
      ensures forall text :: source == Some(text) <==>
        || (exists i: nat :: LastTouch(history, i, name) && history[i].Uploading? && history[i].code == Text(text))
        || (Untouched(history, name) && Read(initial, name) == Some(text))
    {
      source := if name in files && files[name].Text? then Some(files[name].source) else None;
      forall text ensures source == Some(text) <==>
        || (exists i: nat :: LastTouch(history, i, name) && history[i].Uploading? && history[i].code == Text(text))
        || (Untouched(history, name) && Read(initial, name) == Some(text))
      {
        ReadIsLastUpload(initial, history, name, text);
      }
    }
  }

  lemma AfterSnoc(initial: Files, ops: seq<StoreOp>, op: StoreOp)
    ensures After(initial, ops + [op]) == ApplyOp(After(initial, ops), op)
  {
    assert (ops + [op])[..|ops + [op]| - 1] == ops;
  }
}
