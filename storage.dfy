/**
 * The persistence the app shell relies on (src/utils/storage.ts), as an abstract
 * store: the IndexedDB object store of downloaded models, keyed by id, and the
 * two localStorage entries holding the chat messages and the settings. The JSON
 * written to localStorage is taken to read back as the value that was written.
 */
module Storage {
  import opened Wrappers

  /** A record of the model store; its timestamp is not modelled. */
  datatype StoredModel = StoredModel(id: string, name: string)

  datatype ChatRole = UserMessage | AssistantMessage

  /** A chat message; its id and timestamp are not modelled. */
  datatype Message = Message(role: ChatRole, content: string)

  datatype AppSettings = AppSettings(temperature: real, maxTokens: int, darkMode: bool)

  /** The fields a stored settings object carries; `None` where a field is missing. */
  datatype StoredSettings = StoredSettings(temperature: Option<real>, maxTokens: Option<int>, darkMode: Option<bool>)

  const DefaultSettings := AppSettings(0.7, 256, true)

  // ---------------------------------------------------------------------------
  // Key order of the model store

  /** IndexedDB's order on string keys: code unit by code unit, a proper prefix first. */
  predicate Below(a: string, b: string)
  {
    if a == [] then b != []
    else if b == [] then false
    else if a[0] != b[0] then a[0] < b[0]
    else Below(a[1..], b[1..])
  }

  lemma {:induction false} BelowIrreflexive(a: string)
    ensures !Below(a, a)
  {
    if a != [] {
      BelowIrreflexive(a[1..]);
    }
  }

  lemma {:induction false} BelowTransitive(a: string, b: string, c: string)
    requires Below(a, b) && Below(b, c)
    ensures Below(a, c)
  {
    if a != [] && a[0] == b[0] && b[0] == c[0] {
      BelowTransitive(a[1..], b[1..], c[1..]);
    }
  }

  lemma {:induction false} BelowTotal(a: string, b: string)
    ensures a == b || Below(a, b) || Below(b, a)
  {
    if a != [] && b != [] && a[0] == b[0] {
      BelowTotal(a[1..], b[1..]);
      if a[1..] == b[1..] {
        assert a == [a[0]] + a[1..];
        assert b == [b[0]] + b[1..];
      }
    }
  }

  /** The records as `getAll` lists them: in strictly increasing key order. */
  ghost predicate Sorted(ms: seq<StoredModel>)
  {
    forall i, j :: 0 <= i < j < |ms| ==> Below(ms[i].id, ms[j].id)
  }

  /** `store.put(r)`: the record replaces the one with its key, or is added in key order. */
  function Put(ms: seq<StoredModel>, r: StoredModel): seq<StoredModel>
  {
    if ms == [] then [r]
    else if ms[0].id == r.id then [r] + ms[1..]
    else if Below(r.id, ms[0].id) then [r] + ms
    else [ms[0]] + Put(ms[1..], r)
  }

  lemma SortedCons(m: StoredModel, rest: seq<StoredModel>)
    requires Sorted(rest)
    requires forall x :: x in rest ==> Below(m.id, x.id)
    ensures Sorted([m] + rest)
  {
    var ms := [m] + rest;
    forall i, j | 0 <= i < j < |ms|
      ensures Below(ms[i].id, ms[j].id)
    {
      if i == 0 {
        assert ms[j] == rest[j - 1];
      } else {
        assert ms[i] == rest[i - 1] && ms[j] == rest[j - 1];
      }
    }
  }

  /**
   * A put keeps the records in key order; afterwards the store holds the new
   * record and every earlier record under a different key, and nothing else.
   */
  lemma {:induction false} PutKeepsOrder(ms: seq<StoredModel>, r: StoredModel)
    requires Sorted(ms)
    ensures Sorted(Put(ms, r))
    ensures forall m :: m in Put(ms, r) <==> m == r || (m in ms && m.id != r.id)
  {
    if ms == [] {
    } else if ms[0].id == r.id {
      forall m | m in ms[1..] ensures Below(r.id, m.id) && m.id != r.id {
        var j :| 1 <= j < |ms| && ms[j] == m;
        BelowIrreflexive(r.id);
      }
      assert Sorted(ms[1..]) by {
        forall i, j | 0 <= i < j < |ms[1..]| ensures Below(ms[1..][i].id, ms[1..][j].id) {
          assert ms[1..][i] == ms[i + 1] && ms[1..][j] == ms[j + 1];
        }
      }
      SortedCons(r, ms[1..]);
      assert ms == [ms[0]] + ms[1..];
    } else if Below(r.id, ms[0].id) {
      forall m | m in ms ensures Below(r.id, m.id) && m.id != r.id {
        var j :| 0 <= j < |ms| && ms[j] == m;
        if j > 0 {
          BelowTransitive(r.id, ms[0].id, m.id);
        }
        BelowIrreflexive(r.id);
      }
      SortedCons(r, ms);
    } else {
      var rest := ms[1..];
      assert Sorted(rest) by {
        forall i, j | 0 <= i < j < |rest| ensures Below(rest[i].id, rest[j].id) {
          assert rest[i] == ms[i + 1] && rest[j] == ms[j + 1];
        }
      }
      PutKeepsOrder(rest, r);
      BelowTotal(r.id, ms[0].id);
      forall x | x in Put(rest, r) ensures Below(ms[0].id, x.id) {
        if x != r {
          var j :| 0 <= j < |rest| && rest[j] == x;
          assert ms[j + 1] == x;
        }
      }
      SortedCons(ms[0], Put(rest, r));
      assert ms == [ms[0]] + rest;
    }
  }

  /** `getAll()` then `models[0]`: the record with the least key, if any. */
  function First(ms: seq<StoredModel>): (r: Option<StoredModel>)
    ensures r.None? <==> ms == []
    ensures r.Some? ==> r.value in ms
  {
    if ms == [] then None else Some(ms[0])
  }

  /** In a store in key order, the first record has the least key. */
  lemma FirstIsLeast(ms: seq<StoredModel>, m: StoredModel)
    requires Sorted(ms) && m in ms && First(ms) != Some(m)
    ensures Below(First(ms).value.id, m.id)
  {
    var j :| 0 <= j < |ms| && ms[j] == m;
  }

  /**
   * After saving a model, the store's first record is that model exactly when
   * its id sorts before every other stored id: a model saved after another one
   * is not necessarily the one a reload restores.
   */
  lemma {:induction false} FirstAfterPut(ms: seq<StoredModel>, r: StoredModel)
    requires Sorted(ms)
    ensures First(Put(ms, r)) == Some(r) <==> forall m :: m in ms && m.id != r.id ==> Below(r.id, m.id)
  {
    PutKeepsOrder(ms, r);
    var put := Put(ms, r);
    if First(put) == Some(r) {
      forall m | m in ms && m.id != r.id ensures Below(r.id, m.id) {
        assert m in put && m != r;
        FirstIsLeast(put, m);
      }
    } else {
      var f := First(put).value;
      assert f != r && f in ms && f.id != r.id;
      FirstIsLeast(put, r);
      if Below(r.id, f.id) {
        BelowTransitive(r.id, f.id, r.id);
        BelowIrreflexive(r.id);
      }
    }
  }

  // ---------------------------------------------------------------------------
  // Settings

  /** `{ ...defaults, ...stored }`: every stored field overrides the default. */
  function Merge(defaults: AppSettings, stored: StoredSettings): (r: AppSettings)
    ensures r.temperature == (if stored.temperature.Some? then stored.temperature.value else defaults.temperature)
    ensures r.maxTokens == (if stored.maxTokens.Some? then stored.maxTokens.value else defaults.maxTokens)
    ensures r.darkMode == (if stored.darkMode.Some? then stored.darkMode.value else defaults.darkMode)
  {
    AppSettings(stored.temperature.GetOr(defaults.temperature),
                stored.maxTokens.GetOr(defaults.maxTokens),
                stored.darkMode.GetOr(defaults.darkMode))
  }

  /** What `saveSettings` writes: every field present. */
  function Saved(s: AppSettings): StoredSettings
  {
    StoredSettings(Some(s.temperature), Some(s.maxTokens), Some(s.darkMode))
  }

  /** Settings read back after being saved are the saved ones, whatever the defaults. */
  lemma MergeSaved(defaults: AppSettings, s: AppSettings)
    ensures Merge(defaults, Saved(s)) == s
  {
  }

  // ---------------------------------------------------------------------------
  // The store

  class Store {
    /** The model store, as `getAll` lists it. */
    var models: seq<StoredModel>
    /** The `ziropilot-messages` entry, `None` when absent. */
    var messages: Option<seq<Message>>
    /** The `ziropilot-settings` entry, `None` when absent. */
    var settings: Option<StoredSettings>

    ghost predicate Valid()
      reads this
    {
      Sorted(models)
    }

    constructor (models0: seq<StoredModel>, messages0: Option<seq<Message>>, settings0: Option<StoredSettings>)
      requires Sorted(models0)
      ensures Valid()
      ensures models == models0 && messages == messages0 && settings == settings0
    {
      models := models0;
      messages := messages0;
      settings := settings0;
    }

    /** `saveModel(id, name)`. */
    method SaveModel(id: string, name: string)
      requires Valid()
      modifies this
      ensures Valid()
      ensures models == Put(old(models), StoredModel(id, name))
      ensures messages == old(messages) && settings == old(settings)
    {
      PutKeepsOrder(models, StoredModel(id, name));
      models := Put(models, StoredModel(id, name));
    }

    /** `getStoredModel()`: the first record `getAll` lists, or null. */
    function GetStoredModel(): (r: Option<StoredModel>)
      reads this
      requires Valid()
      ensures r.None? <==> models == []
      ensures r.Some? ==> r.value in models && forall m :: m in models && m != r.value ==> Below(r.value.id, m.id)
    {
      var r := First(models);
      if r.Some? then
        assert forall m :: m in models && m != r.value ==> Below(r.value.id, m.id) by {
          forall m | m in models && m != r.value ensures Below(r.value.id, m.id) {
            FirstIsLeast(models, m);
          }
        }
        r
      else r
    }

    /** `clearModel()`. */
    method ClearModel()
      modifies this
      ensures Valid()
      ensures models == [] && messages == old(messages) && settings == old(settings)
    {
      models := [];
    }

    /** `saveMessages(ms)`. */
    method SaveMessages(ms: seq<Message>)
      modifies this
      ensures messages == Some(ms) && models == old(models) && settings == old(settings)
      ensures GetMessages() == ms
    {
      messages := Some(ms);
    }

    /** `getMessages()`: the stored messages, or none when the entry is absent. */
    function GetMessages(): (r: seq<Message>)
      reads this
      ensures messages.Some? ==> r == messages.value
      ensures messages.None? ==> r == []
    {
      messages.GetOr([])
    }

    /** `clearMessages()`. */
    method ClearMessages()
      modifies this
      ensures messages.None? && models == old(models) && settings == old(settings)
      ensures GetMessages() == []
    {
      messages := None;
    }

    /** `saveSettings(s)`. */
    method SaveSettings(s: AppSettings)
      modifies this
      ensures settings == Some(Saved(s)) && models == old(models) && messages == old(messages)
      ensures GetSettings() == s
    {
      settings := Some(Saved(s));
      MergeSaved(DefaultSettings, s);
    }

    /** `getSettings()`: the defaults, overridden by whatever fields are stored. */
    function GetSettings(): (r: AppSettings)
      reads this
      ensures settings.None? ==> r == DefaultSettings
      ensures settings.Some? ==> r == Merge(DefaultSettings, settings.value)
    {
      if settings.Some? then Merge(DefaultSettings, settings.value) else DefaultSettings
    }
  }
}
