/**
 * The local SQLite database: the `settings`, `voices` and `runs` tables, as
 * maps and a sequence inside a `Store` object whose methods are the helper
 * functions `set_setting`, `get_setting`, `upsert_voice` and `insert_run`,
 * plus the two queries the application runs on them.
 */
module LocalStore {
  import opened Wrappers
  import opened Text
  import opened VoiceCatalog

  /** A `voices` row without its key. */
  datatype VoiceRow = VoiceRow(name: string, addedAt: string)

  /** A `runs` row. */
  datatype RunRow = RunRow(id: nat, createdAt: string, pdfPath: string, stylePrompt: string,
                           voiceId: string, voiceName: string, summaryText: string, audioPath: string)

  /**
   * `INSERT ... ON CONFLICT(voice_id) DO UPDATE SET name=excluded.name`: a new
   * id gets a row stamped `now`; an existing id keeps its `added_at` and takes
   * the new name; every other row stays as it was.
   */
  function VoiceUpsert(voices: map<string, VoiceRow>, voiceId: string, name: string, now: string)
    : (r: map<string, VoiceRow>)
    ensures r.Keys == voices.Keys + {voiceId}
    ensures r[voiceId].name == name
    ensures r[voiceId].addedAt == if voiceId in voices then voices[voiceId].addedAt else now
    ensures forall id :: id in voices && id != voiceId ==> r[id] == voices[id]
    ensures |r| == if voiceId in voices then |voices| else |voices| + 1
  {
    if voiceId in voices then voices[voiceId := VoiceRow(name, voices[voiceId].addedAt)]
    else voices[voiceId := VoiceRow(name, now)]
  }

  /** Upserting the same voice twice leaves the table as the first upsert left it. */
  lemma VoiceUpsertIdempotent(voices: map<string, VoiceRow>, voiceId: string, name: string, t1: string, t2: string)
    ensures VoiceUpsert(VoiceUpsert(voices, voiceId, name, t1), voiceId, name, t2)
         == VoiceUpsert(voices, voiceId, name, t1)
  {
  }

  /**
   * The reconcile loop: upsert every listed voice in list order; the i-th
   * upsert reads the clock as `clock(i)`.
   */
  function ReconcileAll(voices: map<string, VoiceRow>, entries: seq<VoiceEntry>, clock: nat -> string)
    : (reconciled: map<string, VoiceRow>)
  {
    if entries == [] then voices
    else
      var n := |entries| - 1;
      VoiceUpsert(ReconcileAll(voices, entries[..n], clock), entries[n].voiceId, entries[n].name, clock(n))
  }
  /** One more round of the reconcile loop upserts the next listed voice. */
  lemma ReconcileAllStep(voices: map<string, VoiceRow>, entries: seq<VoiceEntry>, i: nat, clock: nat -> string)
    requires i < |entries|
    ensures ReconcileAll(voices, entries[..i + 1], clock)
         == VoiceUpsert(ReconcileAll(voices, entries[..i], clock), entries[i].voiceId, entries[i].name, clock(i))
  {
    assert entries[..i + 1][..i] == entries[..i];
  }


  /** The distinct ids of a list. */
  function Ids(entries: seq<VoiceEntry>): (ids: set<string>) {
    set i | 0 <= i < |entries| :: entries[i].voiceId
  }

  /** The name of the last entry with this id (the reference for what the table ends up holding). */
  function LastName(entries: seq<VoiceEntry>, voiceId: string): (name: string)
    requires voiceId in Ids(entries)
  {
    var n := |entries| - 1;
    if entries[n].voiceId == voiceId then entries[n].name
    else
      assert voiceId in Ids(entries[..n]) by {
        var i :| 0 <= i < |entries| && entries[i].voiceId == voiceId;
        assert entries[..n][i] == entries[i];
      }
      LastName(entries[..n], voiceId)
  }

  lemma IdsSnoc(entries: seq<VoiceEntry>)
    requires entries != []
    ensures Ids(entries) == Ids(entries[..|entries| - 1]) + {entries[|entries| - 1].voiceId}
  {
    var n := |entries| - 1;
    var pre := entries[..n];
    forall x | x in Ids(entries) ensures x in Ids(pre) + {entries[n].voiceId} {
      var i :| 0 <= i < |entries| && entries[i].voiceId == x;
      if i < n { assert pre[i] == entries[i]; }
    }
    forall x | x in Ids(pre) ensures x in Ids(entries) {
      var i :| 0 <= i < |pre| && pre[i].voiceId == x;
      assert entries[i] == pre[i];
    }
  }

  /** After reconciling, the table holds exactly the old ids and the listed ids. */
  lemma {:induction false} ReconcileAllKeys(voices: map<string, VoiceRow>, entries: seq<VoiceEntry>,
                                            clock: nat -> string)
    ensures ReconcileAll(voices, entries, clock).Keys == voices.Keys + Ids(entries)
  {
    if entries != [] {
      var n := |entries| - 1;
      var m := ReconcileAll(voices, entries[..n], clock);
      ReconcileAllKeys(voices, entries[..n], clock);
      IdsSnoc(entries);
      assert ReconcileAll(voices, entries, clock).Keys == m.Keys + {entries[n].voiceId};
    }
  }

  /** Each listed id ends up with the name of its last listing. */
  lemma {:induction false} ReconcileAllNames(voices: map<string, VoiceRow>, entries: seq<VoiceEntry>,
                                             clock: nat -> string, voiceId: string)
    requires voiceId in Ids(entries)
    ensures voiceId in ReconcileAll(voices, entries, clock)
    ensures ReconcileAll(voices, entries, clock)[voiceId].name == LastName(entries, voiceId)
  {
    var n := |entries| - 1;
    if entries[n].voiceId != voiceId {
      IdsSnoc(entries);
      ReconcileAllNames(voices, entries[..n], clock, voiceId);
    }
  }

  /** A row that was already there keeps its `added_at`. */
  lemma {:induction false} ReconcileAllKeepsAddedAt(voices: map<string, VoiceRow>, entries: seq<VoiceEntry>,
                                                    clock: nat -> string, voiceId: string)
    requires voiceId in voices
    ensures voiceId in ReconcileAll(voices, entries, clock)
    ensures ReconcileAll(voices, entries, clock)[voiceId].addedAt == voices[voiceId].addedAt
  {
    if entries != [] {
      ReconcileAllKeepsAddedAt(voices, entries[..|entries| - 1], clock, voiceId);
    }
  }

  /** A row whose id is not listed is untouched. */
  lemma {:induction false} ReconcileAllOthers(voices: map<string, VoiceRow>, entries: seq<VoiceEntry>,
                                              clock: nat -> string, voiceId: string)
    requires voiceId in voices && voiceId !in Ids(entries)
    ensures voiceId in ReconcileAll(voices, entries, clock)
    ensures ReconcileAll(voices, entries, clock)[voiceId] == voices[voiceId]
  {
    if entries != [] {
      IdsSnoc(entries);
      ReconcileAllOthers(voices, entries[..|entries| - 1], clock, voiceId);
    }
  }

  /**
   * Reconciling twice against an unchanged remote list leaves the table as the
   * first reconcile left it, whatever the clock reads the second time.
   */
  lemma ReconcileIdempotent(voices: map<string, VoiceRow>, entries: seq<VoiceEntry>,
                            clock1: nat -> string, clock2: nat -> string)
    ensures ReconcileAll(ReconcileAll(voices, entries, clock1), entries, clock2)
         == ReconcileAll(voices, entries, clock1)
  {
    var once := ReconcileAll(voices, entries, clock1);
    var twice := ReconcileAll(once, entries, clock2);
    ReconcileAllKeys(voices, entries, clock1);
    ReconcileAllKeys(once, entries, clock2);
    forall id | id in twice ensures twice[id] == once[id] {
      if id in Ids(entries) {
        ReconcileAllNames(voices, entries, clock1, id);
        ReconcileAllNames(once, entries, clock2, id);
        ReconcileAllKeepsAddedAt(once, entries, clock2, id);
      } else {
        ReconcileAllOthers(once, entries, clock2, id);
      }
    }
  }

  /** Reconciling into an empty table yields one row per distinct listed id. */
  lemma ReconcileRowCount(entries: seq<VoiceEntry>, clock: nat -> string)
    ensures |ReconcileAll(map[], entries, clock)| == |Ids(entries)|
  {
    ReconcileAllKeys(map[], entries, clock);
    assert ReconcileAll(map[], entries, clock).Keys == Ids(entries);
  }

  /** Run ids are 1, 2, 3, ... in insertion order (AUTOINCREMENT, no deletions). */
  ghost predicate SequentialIds(runs: seq<RunRow>) {
    forall i :: 0 <= i < |runs| ==> runs[i].id == i + 1
  }

  /** How many runs the history view shows. */
  const HistoryLimit: nat := 12

  /** `ORDER BY id DESC LIMIT k` over rows stored in id order. */
  function Newest(runs: seq<RunRow>, k: nat): (newest: seq<RunRow>) {
    if k == 0 || runs == [] then []
    else [runs[|runs| - 1]] + Newest(runs[..|runs| - 1], k - 1)
  }

  function Min(a: nat, b: nat): (m: nat) {
    if a <= b then a else b
  }

  /** The newest k rows: min(k, n) of them, the last inserted first. */
  lemma {:induction false} NewestAt(runs: seq<RunRow>, k: nat)
    ensures |Newest(runs, k)| == Min(k, |runs|)
    ensures forall i :: 0 <= i < |Newest(runs, k)| ==> Newest(runs, k)[i] == runs[|runs| - 1 - i]
  {
    if k > 0 && runs != [] {
      var pre := runs[..|runs| - 1];
      NewestAt(pre, k - 1);
      var t := Newest(runs, k);
      assert t == [runs[|runs| - 1]] + Newest(pre, k - 1);
      forall i | 0 <= i < |t| ensures t[i] == runs[|runs| - 1 - i] {
        if i > 0 {
          assert t[i] == Newest(pre, k - 1)[i - 1] == pre[|pre| - i];
        }
      }
    }
  }

  /** The runs the history view lists: `SELECT ... FROM runs ORDER BY id DESC LIMIT 12`. */
  function History(runs: seq<RunRow>): (shown: seq<RunRow>) {
    Newest(runs, HistoryLimit)
  }

  /**
   * The history lists at most 12 runs, highest id first, starting with the
   * newest, and includes every run among the newest twelve.
   */
  lemma HistoryNewestFirst(runs: seq<RunRow>)
    requires SequentialIds(runs)
    ensures var h := History(runs);
            && |h| == Min(HistoryLimit, |runs|)
            && (forall i, j :: 0 <= i < j < |h| ==> h[i].id > h[j].id)
            && (runs != [] ==> h[0] == runs[|runs| - 1])
            && (forall r :: r in runs && r.id + HistoryLimit > |runs| ==> r in h)
  {
    var h := History(runs);
    NewestAt(runs, HistoryLimit);
    forall r | r in runs && r.id + HistoryLimit > |runs| ensures r in h {
      var i :| 0 <= i < |runs| && runs[i] == r;
      assert h[|runs| - 1 - i] == r;
    }
  }

  /** `SELECT ... FROM runs WHERE created_at=?` then `fetchone()`: some run with that timestamp, if any. */
  function FindRunByCreated(runs: seq<RunRow>, createdAt: string): (r: Option<RunRow>)
    ensures r.Some? ==> r.value in runs && r.value.createdAt == createdAt
    ensures r.None? <==> forall i :: 0 <= i < |runs| ==> runs[i].createdAt != createdAt
  {
    if runs == [] then None
    else if runs[0].createdAt == createdAt then Some(runs[0])
    else FindRunByCreated(runs[1..], createdAt)
  }

  /**
   * The rows of `SELECT name, voice_id FROM voices ORDER BY name`: one per row
   * of the table, ordered by name under the BINARY collation.
   */
  ghost predicate IsNameOrderedListing(rows: seq<VoiceEntry>, voices: map<string, VoiceRow>) {
    && (forall i :: 0 <= i < |rows| ==> rows[i].voiceId in voices && voices[rows[i].voiceId].name == rows[i].name)
    && (forall id :: id in voices ==> exists i :: 0 <= i < |rows| && rows[i].voiceId == id)
    && (forall i, j :: 0 <= i < j < |rows| ==> rows[i].voiceId != rows[j].voiceId)
    && (forall i, j :: 0 <= i < j < |rows| ==> NameLe(rows[i].name, rows[j].name))
  }

  /** A listing that pairs every cached voice with its own name names exactly the cached voices. */
  lemma ListingNames(rows: seq<VoiceEntry>, voices: map<string, VoiceRow>)
    requires forall i :: 0 <= i < |rows| ==> rows[i].voiceId in voices && voices[rows[i].voiceId].name == rows[i].name
    requires forall id :: id in voices ==> exists i :: 0 <= i < |rows| && rows[i].voiceId == id
    ensures Names(rows) == set id | id in voices :: voices[id].name
  {
    forall n | n in Names(rows) ensures n in (set id | id in voices :: voices[id].name) {
      var i :| 0 <= i < |rows| && rows[i].name == n;
      assert voices[rows[i].voiceId].name == n;
    }
    forall id | id in voices ensures voices[id].name in Names(rows) {
      var i :| 0 <= i < |rows| && rows[i].voiceId == id;
      assert rows[i].name == voices[id].name;
    }
  }

  /** The voice map built from the cached listing has exactly the cached names as keys. */
  lemma CachedVoiceMapKeys(rows: seq<VoiceEntry>, voices: map<string, VoiceRow>)
    requires IsNameOrderedListing(rows, voices)
    ensures BuildVoiceMap(rows).ids.Keys == set id | id in voices :: voices[id].name
  {
    BuildVoiceMapKeySet(rows);
    ListingNames(rows, voices);
  }

  /**
   * Loading from the cache keeps a non-empty selection. With nothing selected
   * and at least one cached voice, it selects a cached voice's name that
   * resolves in the map and is the least cached name under the BINARY order.
   */
  lemma CachedLoadSelectsLeastName(rows: seq<VoiceEntry>, voices: map<string, VoiceRow>, current: string)
    requires IsNameOrderedListing(rows, voices)
    ensures var vm := BuildVoiceMap(rows);
            var s := SelectAfterCached(vm, current);
            && (current != "" || voices == map[] ==> s == current)
            && (current == "" && voices != map[] ==>
                  && s in vm.ids
                  && (exists id :: id in voices && voices[id].name == s)
                  && (forall id :: id in voices ==> NameLe(s, voices[id].name))
                  && (forall id :: id in voices && NameLe(voices[id].name, s) ==> voices[id].name == s))
  {
    var vm := BuildVoiceMap(rows);
    if rows == [] {
      assert forall id :: id !in voices;
      assert voices == map[];
    } else {
      BuildVoiceMapFirstKey(rows);
      CachedVoiceMapKeys(rows, voices);
      var least := rows[0].name;
      assert rows[0].voiceId in voices;
      assert voices[rows[0].voiceId].name == least;
      forall id | id in voices ensures NameLe(least, voices[id].name) {
        var i :| 0 <= i < |rows| && rows[i].voiceId == id;
        if i == 0 {
          NameLeReflexive(least);
        } else {
          assert NameLe(rows[0].name, rows[i].name);
        }
      }
      forall id | id in voices && NameLe(voices[id].name, least) ensures voices[id].name == least {
        NameLeAntisymmetric(voices[id].name, least);
      }
    }
  }

  class Store {
    /** `settings(key PRIMARY KEY, value)`. */
    var settings: map<string, string>
    /** `voices(voice_id PRIMARY KEY, name, added_at)`, keyed by voice id. */
    var voices: map<string, VoiceRow>
    /** `runs`, in id order. */
    var runs: seq<RunRow>

    ghost predicate Valid()
      reads this
    {
      SequentialIds(runs)
    }

    /** `init_db` on a fresh database: three empty tables. */
    constructor ()
      ensures Valid()
      ensures settings == map[] && voices == map[] && runs == []
    {
      settings := map[];
      voices := map[];
      runs := [];
    }

    /** `get_setting(key, default="")`. */
    function GetSetting(key: string, default: string := ""): (value: string)
      reads this
      ensures key in settings ==> value == settings[key]
      ensures key !in settings ==> value == default
    {
      if key in settings then settings[key] else default
    }

    /** `set_setting`: insert or overwrite one key. */
    method SetSetting(key: string, value: string)
      requires Valid()
      modifies this
      ensures Valid()
      ensures settings == old(settings)[key := value]
      ensures GetSetting(key) == value
      ensures forall k, d :: k != key ==> GetSetting(k, d) == old(GetSetting(k, d))
      ensures voices == old(voices) && runs == old(runs)
    {
      settings := settings[key := value];
    }

    /** `upsert_voice`, with the clock reading passed in. */
    method UpsertVoice(voiceId: string, name: string, now: string)
      requires Valid()
      modifies this
      ensures Valid()
      ensures voices == VoiceUpsert(old(voices), voiceId, name, now)
      ensures settings == old(settings) && runs == old(runs)
    {
      if voiceId in voices {
        voices := voices[voiceId := VoiceRow(name, voices[voiceId].addedAt)];
      } else {
        voices := voices[voiceId := VoiceRow(name, now)];
      }
    }

    /** `insert_run`: append one row with the next id. */
    method InsertRun(createdAt: string, pdfPath: string, stylePrompt: string, voiceId: string,
                     voiceName: string, summaryText: string, audioPath: string)
      requires Valid()
      modifies this
      ensures Valid()
      ensures runs == old(runs) + [RunRow(|old(runs)| + 1, createdAt, pdfPath, stylePrompt, voiceId,
                                          voiceName, summaryText, audioPath)]
      ensures settings == old(settings) && voices == old(voices)
    {
      runs := runs + [RunRow(|runs| + 1, createdAt, pdfPath, stylePrompt, voiceId, voiceName, summaryText, audioPath)];
    }
  }
}
