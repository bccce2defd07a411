/**
 * The one-time secret store. The persisted JSON file is a map from id to
 * plaintext; `SaveSecret` upserts `SecretId(plaintext) -> plaintext`,
 * `LoadSecret` hands a stored value out and deletes it in the same call.
 *
 * Every call runs under one global lock and re-reads and rewrites the whole
 * file, so each call is modelled as one atomic step. The outcome of each file
 * operation (stat, read-and-decode, write) is an input: the model says what
 * the store does for every outcome, not which outcome occurs.
 *
 * The specification functions (`CreateEffect`, `WriteEffect`, `LoadEffect`,
 * `SaveEffect`) give the new file contents and the returned values of one
 * call; class `Store` is the imperative model whose methods are proved
 * against them; the lemmas at the end relate several calls.
 */
module Secrets {
  import opened Ids

  type SecretsMap = map<string, string>

  /** What `os.ReadFile` followed by `json.Unmarshal` produced. */
  datatype ReadOutcome =
    | ReadOk                // the file was read and decoded to the stored map
    | ReadFails(msg: string) // os.ReadFile returned an error
    | Undecodable           // read fine, but decoding left the map nil (error discarded)

  /** What `os.WriteFile` of the re-encoded map did. */
  datatype WriteOutcome = WriteOk | WriteFails(msg: string)

  /** What `os.Stat` reported about the data file. */
  datatype StatOutcome = Exists | NotExist | StatFails(msg: string)

  /** The I/O outcomes of one read-modify-write call. */
  datatype Io = Io(read: ReadOutcome, write: WriteOutcome)

  /** A Go `error` result (nil or an error with a message), or a panic. */
  datatype Outcome = Ok | Err(msg: string) | Panic

  datatype Written = Written(secrets: SecretsMap, outcome: Outcome)
  datatype Loaded = Loaded(secrets: SecretsMap, value: string, outcome: Outcome)
  datatype Saved = Saved(secrets: SecretsMap, id: string, outcome: Outcome)

  const AllOk := Io(ReadOk, WriteOk)

  /** Go's `m[key]`: the zero value "" for a missing key. */
  function Lookup(m: SecretsMap, key: string): string {
    if key in m then m[key] else ""
  }

  /** A secret that `LoadSecret` would hand out: present and not "". */
  predicate Live(m: SecretsMap, id: string) {
    id in m && m[id] != ""
  }

  function ErrorOf(err: Option<string>): Outcome {
    match err
    case None => Ok
    case Some(msg) => Err(msg)
  }

  /** `createFile`: a missing data file is created holding `{}`. */
  function CreateEffect(m: SecretsMap, stat: StatOutcome, write: WriteOutcome): (r: Written)
    ensures r.outcome != Panic
    ensures r.outcome == Ok <==> stat == Exists || (stat == NotExist && write == WriteOk)
    ensures r.outcome == Ok && stat == NotExist ==> r.secrets == map[]
    ensures stat != NotExist || r.outcome != Ok ==> r.secrets == m
    ensures stat.StatFails? ==> r == Written(m, Err(stat.msg))
    ensures stat == NotExist && write.WriteFails? ==> r == Written(m, Err(write.msg))
  {
    match stat
    case Exists => Written(m, Ok)
    case StatFails(msg) => Written(m, Err(msg))
    case NotExist =>
      match write
      case WriteOk => Written(map[], Ok)
      case WriteFails(msg) => Written(m, Err(msg))
  }

  /** `writeSecret(hash, value)`: upsert under the lock, then rewrite the file. */
  function WriteEffect(m: SecretsMap, hash: string, value: string, io: Io): (r: Written)
    ensures r.outcome == Ok <==> io == AllOk
    ensures r.outcome == Panic <==> io.read == Undecodable
    ensures io.read.ReadFails? ==> r.outcome == Err(io.read.msg)
    ensures io.read == ReadOk && io.write.WriteFails? ==> r.outcome == Err(io.write.msg)
    ensures r.outcome == Ok ==> r.secrets == m[hash := value]
    ensures r.outcome != Ok ==> r.secrets == m
  {
    match io.read
    case ReadFails(msg) => Written(m, Err(msg))
    case Undecodable => Written(m, Panic)
    case ReadOk =>
      match io.write
      case WriteOk => Written(m[hash := value], Ok)
      case WriteFails(msg) => Written(m, Err(msg))
  }

  /** `SaveSecret(plainText)`: derive the id, then `writeSecret(id, plainText)`. */
  function SaveEffect(m: SecretsMap, plainText: string, io: Io, md5: string -> Digest): (r: Saved)
    ensures r.id == SecretId(md5, plainText)
    ensures r.outcome == Ok <==> io == AllOk
    ensures r.outcome == Panic <==> io.read == Undecodable
    ensures io.read.ReadFails? ==> r.outcome == Err(io.read.msg)
    ensures io.read == ReadOk && io.write.WriteFails? ==> r.outcome == Err(io.write.msg)
    ensures r.outcome == Ok ==> r.secrets == m[r.id := plainText]
    ensures r.outcome != Ok ==> r.secrets == m
  {
    var id := SecretId(md5, plainText);
    var w := WriteEffect(m, id, plainText, io);
    Saved(w.secrets, id, w.outcome)
  }

  /** `LoadSecret(id)`: read, and if a non-empty value is stored, delete it and rewrite. */
  function LoadEffect(m: SecretsMap, id: string, io: Io): (r: Loaded)
    ensures r.outcome != Panic
    // only ever hands out what is stored under id
    ensures r.value != "" ==> Live(m, id) && r.value == m[id]
    // the only change is removing id, and only together with a successful hand-out
    ensures r.secrets == m || (r.secrets == m - {id} && r.outcome == Ok && r.value != "")
    // a missing id, or one mapped to "", is absent: ("", no change)
    ensures !Live(m, id) ==> r.secrets == m && r.value == ""
    ensures !Live(m, id) ==> (r.outcome == Ok <==> !io.read.ReadFails?)
    ensures io.read.ReadFails? ==> r == Loaded(m, "", Err(io.read.msg))
    // an undecodable file reads as a nil map: every id is absent
    ensures io.read == Undecodable ==> r == Loaded(m, "", Ok)
    // a live id read successfully: the value comes back, deleted iff the rewrite succeeds
    ensures Live(m, id) && io.read == ReadOk ==> r.value == m[id]
    ensures Live(m, id) && io.read == ReadOk ==>
              (r.outcome == Ok <==> io.write == WriteOk) &&
              r.secrets == (if io.write == WriteOk then m - {id} else m)
    ensures Live(m, id) && io.read == ReadOk && io.write.WriteFails? ==>
              r == Loaded(m, m[id], Err(io.write.msg))
  {
    match io.read
    case ReadFails(msg) => Loaded(m, "", Err(msg))
    case Undecodable => Loaded(m, "", Ok)  // indexing a nil map yields ""
    case ReadOk =>
      var value := Lookup(m, id);
      if value == "" then Loaded(m, "", Ok)
      else
        match io.write
        case WriteOk => Loaded(m - {id}, value, Ok)
        case WriteFails(msg) => Loaded(m, value, Err(msg))
  }

  /**
   * The data file. `secrets` is what the file holds. `WriteSecret` and
   * `LoadSecret` are each one call made under the package lock. `SaveSecret`
   * computes the id without the lock, then calls `WriteSecret`, which takes
   * it; the id touches no state, so the call is still one atomic step.
   * `CreateFile` takes no lock and runs once at startup.
   */
  class Store {
    var secrets: SecretsMap

    /** The store over a data file that currently holds `onDisk`. */
    constructor (onDisk: SecretsMap)
      ensures secrets == onDisk
    {
      secrets := onDisk;
    }

    /** `createFile`: stat the file; if it does not exist, write `{}`. */
    method CreateFile(stat: StatOutcome, write: WriteOutcome) returns (outcome: Outcome)
      modifies this
      ensures Written(secrets, outcome) == CreateEffect(old(secrets), stat, write)
    {
      match stat {
        case Exists =>
          outcome := Ok;
        case StatFails(msg) =>
          outcome := Err(msg);
        case NotExist =>
          var err := SaveJsonFile(map[], write);
          outcome := ErrorOf(err);
      }
    }

    /**
     * `readJSONFile`: the decoded map (None for Go's nil map) and the read
     * error; a decoding error is dropped.
     */
    method ReadJsonFile(read: ReadOutcome) returns (theSecrets: Option<SecretsMap>, err: Option<string>)
      ensures err.None? <==> !read.ReadFails?
      ensures read.ReadFails? ==> err == Some(read.msg)
      ensures theSecrets.Some? <==> read == ReadOk
      ensures theSecrets.Some? ==> theSecrets.value == secrets
    {
      match read {
        case ReadOk =>
          theSecrets, err := Some(secrets), None;
        case ReadFails(msg) =>
          theSecrets, err := None, Some(msg);
        case Undecodable =>
          theSecrets, err := None, None;
      }
    }

    /** `saveJSONFile`: encode `m` and replace the file with it. */
    method SaveJsonFile(m: SecretsMap, write: WriteOutcome) returns (err: Option<string>)
      modifies this
      ensures err.None? <==> write == WriteOk
      ensures write.WriteFails? ==> err == Some(write.msg)
      ensures secrets == if write == WriteOk then m else old(secrets)
    {
      match write {
        case WriteOk =>
          secrets := m;
          err := None;
        case WriteFails(msg) =>
          err := Some(msg);
      }
    }

    method WriteSecret(hash: string, value: string, io: Io) returns (outcome: Outcome)
      modifies this
      ensures Written(secrets, outcome) == WriteEffect(old(secrets), hash, value, io)
    {
      var theSecrets, err := ReadJsonFile(io.read);
      if err.Some? {
        return Err(err.value);
      }
      if theSecrets.None? {
        // assigning into a nil map panics
        return Panic;
      }
      var updated := theSecrets.value[hash := value];
      err := SaveJsonFile(updated, io.write);
      outcome := ErrorOf(err);
    }

    method LoadSecret(id: string, io: Io) returns (value: string, outcome: Outcome)
      modifies this
      ensures Loaded(secrets, value, outcome) == LoadEffect(old(secrets), id, io)
    {
      var theSecrets, err := ReadJsonFile(io.read);
      if err.Some? {
        return "", Err(err.value);
      }
      value := if theSecrets.Some? then Lookup(theSecrets.value, id) else "";
      if value == "" {
        return "", Ok;
      }
      var remaining := theSecrets.value - {id};
      err := SaveJsonFile(remaining, io.write);
      outcome := ErrorOf(err);
    }

    method SaveSecret(plainText: string, io: Io, md5: string -> Digest) returns (hash: string, outcome: Outcome)
      modifies this
      ensures Saved(secrets, hash, outcome) == SaveEffect(old(secrets), plainText, io, md5)
    {
      hash := SecretId(md5, plainText);
      outcome := WriteSecret(hash, plainText, io);
    }
  }

  // ---------------------------------------------------------------------
  // Properties of one or two calls

  /** Saving the same plaintext twice gives the same id and the same file as saving once. */
  lemma SaveIsIdempotent(m: SecretsMap, plainText: string, md5: string -> Digest)
    ensures var once := SaveEffect(m, plainText, AllOk, md5);
            SaveEffect(once.secrets, plainText, AllOk, md5) == once
  {
    var once := SaveEffect(m, plainText, AllOk, md5);
    assert once.secrets[once.id := plainText] == once.secrets;
  }

  /** A save whose file read fails writes nothing and still returns the id. */
  lemma SaveReadFailure(m: SecretsMap, plainText: string, msg: string, write: WriteOutcome, md5: string -> Digest)
    ensures SaveEffect(m, plainText, Io(ReadFails(msg), write), md5)
              == Saved(m, SecretId(md5, plainText), Err(msg))
  {
  }

  /** After a successful hand-out, loading the same id again yields "" and changes nothing. */
  lemma ExactlyOnce(m: SecretsMap, id: string, first: Io, second: Io)
    requires LoadEffect(m, id, first).outcome == Ok
    requires LoadEffect(m, id, first).value != ""
    ensures var after := LoadEffect(m, id, first).secrets;
            LoadEffect(after, id, second).value == "" &&
            LoadEffect(after, id, second).secrets == after
  {
  }

  /** Save of a non-empty plaintext followed by a load of its id returns the plaintext. */
  lemma SaveThenLoad(m: SecretsMap, plainText: string, md5: string -> Digest)
    requires plainText != ""
    ensures var saved := SaveEffect(m, plainText, AllOk, md5);
            LoadEffect(saved.secrets, saved.id, AllOk)
              == Loaded(m - {saved.id}, plainText, Ok)
  {
    var saved := SaveEffect(m, plainText, AllOk, md5);
    assert saved.secrets - {saved.id} == m - {saved.id};
  }

  /** `SaveSecret("")` is accepted, but no load ever hands the entry out or removes it. */
  lemma EmptySaveIsNeverConsumed(m: SecretsMap, md5: string -> Digest)
    ensures var saved := SaveEffect(m, "", AllOk, md5);
            saved.outcome == Ok && saved.id in saved.secrets && saved.secrets[saved.id] == "" &&
            forall loadIo: Io {:trigger LoadEffect(saved.secrets, saved.id, loadIo)} ::
              LoadEffect(saved.secrets, saved.id, loadIo).value == "" &&
              LoadEffect(saved.secrets, saved.id, loadIo).secrets == saved.secrets
  {
  }

  // ---------------------------------------------------------------------
  // Serialized histories: the lock makes every run a sequence of calls

  datatype Call = SaveCall(plainText: string, io: Io) | LoadCall(id: string, io: Io)

  /** The file after one call. */
  function Step(m: SecretsMap, call: Call, md5: string -> Digest): SecretsMap {
    match call
    case SaveCall(p, io) => SaveEffect(m, p, io, md5).secrets
    case LoadCall(id, io) => LoadEffect(m, id, io).secrets
  }

  /** The file after a sequence of calls. */
  function Run(m: SecretsMap, calls: seq<Call>, md5: string -> Digest): SecretsMap
    decreases |calls|
  {
    if calls == [] then m else Run(Step(m, calls[0], md5), calls[1..], md5)
  }

  /** The call is a load of `id` that hands a value out without error. */
  predicate Reveals(m: SecretsMap, call: Call, id: string) {
    call.LoadCall? && call.id == id &&
    LoadEffect(m, id, call.io).outcome == Ok && LoadEffect(m, id, call.io).value != ""
  }

  /** The call is a successful save of a non-empty plaintext under `id`. */
  predicate Stores(call: Call, id: string, md5: string -> Digest) {
    call.SaveCall? && call.plainText != "" && call.io == AllOk &&
    SecretId(md5, call.plainText) == id
  }

  function Indicator(b: bool): nat {
    if b then 1 else 0
  }

  function RevealCount(m: SecretsMap, calls: seq<Call>, id: string, md5: string -> Digest): nat
    decreases |calls|
  {
    if calls == [] then 0
    else Indicator(Reveals(m, calls[0], id)) + RevealCount(Step(m, calls[0], md5), calls[1..], id, md5)
  }

  function StoreCount(calls: seq<Call>, id: string, md5: string -> Digest): nat
    decreases |calls|
  {
    if calls == [] then 0
    else Indicator(Stores(calls[0], id, md5)) + StoreCount(calls[1..], id, md5)
  }

  /** One call: a hand-out consumes the live entry, only a store makes it live. */
  lemma StepAccounting(m: SecretsMap, call: Call, id: string, md5: string -> Digest)
    ensures Indicator(Reveals(m, call, id)) + Indicator(Live(Step(m, call, md5), id))
            <= Indicator(Live(m, id)) + Indicator(Stores(call, id, md5))
  {
    match call
    case LoadCall(k, io) =>
      var r := LoadEffect(m, k, io);
      if k != id {
        assert Live(r.secrets, id) == Live(m, id);
      }
    case SaveCall(p, io) =>
      var r := SaveEffect(m, p, io, md5);
      if r.id != id || r.outcome != Ok {
        assert Live(r.secrets, id) == Live(m, id);
      }
  }

  /**
   * Exactly-once over any serialized history: the values handed out for an
   * id, plus the entry still live at the end, never exceed the entry live
   * at the start plus the successful non-empty saves under that id.
   */
  lemma {:induction false} RevealsBoundedByStores(m: SecretsMap, calls: seq<Call>, id: string, md5: string -> Digest)
    ensures RevealCount(m, calls, id, md5) + Indicator(Live(Run(m, calls, md5), id))
            <= Indicator(Live(m, id)) + StoreCount(calls, id, md5)
    decreases |calls|
  {
    if calls != [] {
      StepAccounting(m, calls[0], id, md5);
      RevealsBoundedByStores(Step(m, calls[0], md5), calls[1..], id, md5);
    }
  }

  /** An id that is not live and saved at most once is handed out at most once. */
  lemma AtMostOneRevealPerSave(m: SecretsMap, calls: seq<Call>, id: string, md5: string -> Digest)
    requires !Live(m, id)
    requires StoreCount(calls, id, md5) <= 1
    ensures RevealCount(m, calls, id, md5) <= 1
  {
    RevealsBoundedByStores(m, calls, id, md5);
  }

  /** An entry holding "" survives every history that never saves under its id. */
  lemma {:induction false} EmptyEntryPersists(m: SecretsMap, calls: seq<Call>, id: string, md5: string -> Digest)
    requires id in m && m[id] == ""
    requires forall i :: 0 <= i < |calls| ==> !Stores(calls[i], id, md5)
    ensures id in Run(m, calls, md5) && Run(m, calls, md5)[id] == ""
    ensures RevealCount(m, calls, id, md5) == 0
    decreases |calls|
  {
    if calls != [] {
      var m' := Step(m, calls[0], md5);
      assert id in m' && m'[id] == "";
      assert forall i :: 0 <= i < |calls[1..]| ==> !Stores(calls[1..][i], id, md5) by {
        forall i | 0 <= i < |calls[1..]| ensures calls[1..][i] == calls[i + 1] { }
      }
      EmptyEntryPersists(m', calls[1..], id, md5);
    }
  }

  /**
   * A live entry survives every history that neither loads its id nor saves
   * under it (successfully or not): no entry is lost between its save and
   * the next load of its id.
   */
  lemma {:induction false} LiveEntrySurvives(m: SecretsMap, calls: seq<Call>, id: string, md5: string -> Digest)
    requires Live(m, id)
    requires forall i :: 0 <= i < |calls| ==>
               !(calls[i].LoadCall? && calls[i].id == id) &&
               !(calls[i].SaveCall? && SecretId(md5, calls[i].plainText) == id)
    ensures Live(Run(m, calls, md5), id) && Run(m, calls, md5)[id] == m[id]
    decreases |calls|
  {
    if calls != [] {
      var m' := Step(m, calls[0], md5);
      assert Live(m', id) && m'[id] == m[id];
      assert forall i :: 0 <= i < |calls[1..]| ==>
               !(calls[1..][i].LoadCall? && calls[1..][i].id == id) &&
               !(calls[1..][i].SaveCall? && SecretId(md5, calls[1..][i].plainText) == id) by {
        forall i | 0 <= i < |calls[1..]| ensures calls[1..][i] == calls[i + 1] { }
      }
      LiveEntrySurvives(m', calls[1..], id, md5);
    }
  }

  /**
   * At least once: after a successful save of a non-empty plaintext, and any
   * calls that neither load its id nor save under it, a successful load of its id returns the
   * plaintext and removes only that id.
   */
  lemma SaveSurvivesUntilLoad(m: SecretsMap, plainText: string, calls: seq<Call>, md5: string -> Digest)
    requires plainText != ""
    requires forall i :: 0 <= i < |calls| ==>
               !(calls[i].LoadCall? && calls[i].id == SecretId(md5, plainText)) &&
               !(calls[i].SaveCall? && SecretId(md5, calls[i].plainText) == SecretId(md5, plainText))
    ensures var saved := SaveEffect(m, plainText, AllOk, md5);
            var before := Run(saved.secrets, calls, md5);
            LoadEffect(before, saved.id, AllOk) == Loaded(before - {saved.id}, plainText, Ok)
  {
    var saved := SaveEffect(m, plainText, AllOk, md5);
    LiveEntrySurvives(saved.secrets, calls, saved.id, md5);
  }
}
