/** The settings page: a four-field preferences record that starts from fixed
    defaults, has the stored object shallow-merged over it on fetch, and is
    written back whole, one changed key at a time. */
module Settings {

  import opened Common

  datatype Preferences = Preferences(theme: string, notifications: bool, autoSave: bool, language: string)

  /** The record the page starts from. */
  const Defaults: Preferences := Preferences("system", true, true, "en")

  /** The keys of the record, and the two kinds of value they hold. */
  datatype Key = ThemeKey | NotificationsKey | AutoSaveKey | LanguageKey
  datatype Value = Text(text: string) | Flag(flag: bool)

  function Get(p: Preferences, k: Key): Value {
    match k
    case ThemeKey => Text(p.theme)
    case NotificationsKey => Flag(p.notifications)
    case AutoSaveKey => Flag(p.autoSave)
    case LanguageKey => Text(p.language)
  }

  /** The value kind each key is declared with: text for theme and language, a flag for the switches. */
  predicate Fits(k: Key, v: Value) {
    if k == ThemeKey || k == LanguageKey then v.Text? else v.Flag?
  }

  /** The stored `preferences` object: any of the four keys may be absent. */
  datatype StoredPreferences = StoredPreferences(
    theme: Option<string>, notifications: Option<bool>, autoSave: Option<bool>, language: Option<string>)

  const NothingStored: StoredPreferences := StoredPreferences(None, None, None, None)

  function StoredGet(s: StoredPreferences, k: Key): Option<Value> {
    match k
    case ThemeKey => if s.theme.Some? then Some(Text(s.theme.value)) else None
    case NotificationsKey => if s.notifications.Some? then Some(Flag(s.notifications.value)) else None
    case AutoSaveKey => if s.autoSave.Some? then Some(Flag(s.autoSave.value)) else None
    case LanguageKey => if s.language.Some? then Some(Text(s.language.value)) else None
  }

  /** The `preferences` column of the fetched row: null, a value that is not an
      object, or an object. */
  datatype PreferencesColumn = NoPreferences | NotAnObject | PreferencesObject(stored: StoredPreferences)

  /** `{ ...p, ...s }`: every key present in the stored object overrides, every
      absent key keeps the current value. */
  function Merge(p: Preferences, s: StoredPreferences): (r: Preferences)
    ensures forall k :: StoredGet(s, k).Some? ==> Get(r, k) == StoredGet(s, k).value
    ensures forall k :: StoredGet(s, k).None? ==> Get(r, k) == Get(p, k)
  {
    Preferences(
      if s.theme.Some? then s.theme.value else p.theme,
      if s.notifications.Some? then s.notifications.value else p.notifications,
      if s.autoSave.Some? then s.autoSave.value else p.autoSave,
      if s.language.Some? then s.language.value else p.language)
  }

  /** An empty stored object changes nothing. */
  lemma MergeNothing(p: Preferences)
    ensures Merge(p, NothingStored) == p
  {
  }

  /** Merging the same stored object twice is merging it once. */
  lemma MergeIdempotent(p: Preferences, s: StoredPreferences)
    ensures Merge(Merge(p, s), s) == Merge(p, s)
  {
  }

  /** `{ ...p, [k]: v }`: the new snapshot holds v at k and agrees with p elsewhere. */
  function Set(p: Preferences, k: Key, v: Value): (r: Preferences)
    requires Fits(k, v)
    ensures Get(r, k) == v
    ensures forall k' :: k' != k ==> Get(r, k') == Get(p, k')
  {
    match k
    case ThemeKey => p.(theme := v.text)
    case NotificationsKey => p.(notifications := v.flag)
    case AutoSaveKey => p.(autoSave := v.flag)
    case LanguageKey => p.(language := v.text)
  }

  /** The stored object holding only key k. */
  function Single(k: Key, v: Value): (s: StoredPreferences)
    requires Fits(k, v)
    ensures StoredGet(s, k) == Some(v)
    ensures forall k' :: k' != k ==> StoredGet(s, k') == None
  {
    match k
    case ThemeKey => NothingStored.(theme := Some(v.text))
    case NotificationsKey => NothingStored.(notifications := Some(v.flag))
    case AutoSaveKey => NothingStored.(autoSave := Some(v.flag))
    case LanguageKey => NothingStored.(language := Some(v.text))
  }

  /** Two preference records are equal when they agree on every key. */
  lemma {:induction false} EqualOnAllKeys(p: Preferences, q: Preferences)
    requires forall k :: Get(p, k) == Get(q, k)
    ensures p == q
  {
    assert Get(p, ThemeKey) == Get(q, ThemeKey);
    assert Get(p, NotificationsKey) == Get(q, NotificationsKey);
    assert Get(p, AutoSaveKey) == Get(q, AutoSaveKey);
    assert Get(p, LanguageKey) == Get(q, LanguageKey);
  }

  /** `Merge`'s per-key contract determines it: a record that agrees with it
      key by key is the merge. */
  lemma {:induction false} MergeDetermined(p: Preferences, s: StoredPreferences, q: Preferences)
    requires forall k :: Get(q, k) == (if StoredGet(s, k).Some? then StoredGet(s, k).value else Get(p, k))
    ensures q == Merge(p, s)
  {
    EqualOnAllKeys(q, Merge(p, s));
  }

  /** `Set`'s per-key contract determines it: a record holding v at k and
      agreeing with p elsewhere is the change. */
  lemma {:induction false} SetDetermined(p: Preferences, k: Key, v: Value, q: Preferences)
    requires Fits(k, v)
    requires Get(q, k) == v && forall k' :: k' != k ==> Get(q, k') == Get(p, k')
    ensures q == Set(p, k, v)
  {
    EqualOnAllKeys(q, Set(p, k, v));
  }

  /** A single-key change is the shallow merge of a one-key object. */
  lemma SetIsOneKeyMerge(p: Preferences, k: Key, v: Value)
    requires Fits(k, v)
    ensures Set(p, k, v) == Merge(p, Single(k, v))
  {
  }

  /** Changing a key to the value it already holds gives the same record. */
  lemma SetCurrentValue(p: Preferences, k: Key)
    ensures Fits(k, Get(p, k)) && Set(p, k, Get(p, k)) == p
  {
  }

  /** Of two changes to one key, the later wins. */
  lemma SetTwice(p: Preferences, k: Key, v: Value, w: Value)
    requires Fits(k, v) && Fits(k, w)
    ensures Set(Set(p, k, v), k, w) == Set(p, k, w)
  {
  }

  /** Changes to different keys commute. */
  lemma SetCommutes(p: Preferences, k: Key, v: Value, k': Key, w: Value)
    requires Fits(k, v) && Fits(k', w) && k != k'
    ensures Set(Set(p, k, v), k', w) == Set(Set(p, k', w), k, v)
  {
  }

  /** The preferences after a fetch over p: merged when the read delivered a
      row whose column is an object, p itself on every other path. */
  function Fetched(p: Preferences, r: ReadResult<PreferencesColumn>): (q: Preferences)
    ensures r.Thrown? ==> q == p
    ensures r.Answer? && IsReadFailure(r.error) ==> q == p
    ensures r.Answer? && (r.data.None? || !r.data.value.PreferencesObject?) ==> q == p
    ensures r.Answer? && !IsReadFailure(r.error) && r.data.Some? && r.data.value.PreferencesObject?
            ==> q == Merge(p, r.data.value.stored)
  {
    var d: Option<PreferencesColumn> := Delivered(r);
    if d.Some? && d.value.PreferencesObject? then Merge(p, d.value.stored) else p
  }

  /** The row an upsert of the page sends. */
  datatype PreferencesUpsert = PreferencesUpsert(userId: string, preferences: Preferences)

  /** One change made on the page, with the store's answer to its write. */
  datatype Edit = Edit(key: Key, value: Value, result: WriteResult)

  predicate AllFit(edits: seq<Edit>) {
    forall i :: 0 <= i < |edits| ==> Fits(edits[i].key, edits[i].value)
  }

  /** The in-memory preferences after changes handled one after another: each
      builds its snapshot from the current record, which it replaces only when
      the write is accepted. */
  function AfterEdits(p: Preferences, edits: seq<Edit>): Preferences
    requires AllFit(edits)
    decreases |edits|
  {
    if edits == [] then p
    else
      var snapshot := Set(p, edits[0].key, edits[0].value);
      AfterEdits(if edits[0].result.Written? then snapshot else p, edits[1..])
  }

  /** The value of key k in the last accepted change to k, if any. */
  function LastAccepted(edits: seq<Edit>, k: Key): Option<Value>
    decreases |edits|
  {
    if edits == [] then None
    else
      var later := LastAccepted(edits[1..], k);
      if later.Some? then later
      else if edits[0].key == k && edits[0].result.Written? then Some(edits[0].value)
      else None
  }

  /** After any run of changes, each key holds the value of its last accepted
      change, or its starting value when no change to it was accepted. */
  lemma {:induction false} AfterEditsPerKey(p: Preferences, edits: seq<Edit>, k: Key)
    requires AllFit(edits)
    ensures Get(AfterEdits(p, edits), k) ==
            (if LastAccepted(edits, k).Some? then LastAccepted(edits, k).value else Get(p, k))
    decreases |edits|
  {
    if edits != [] {
      var e := edits[0];
      var next := if e.result.Written? then Set(p, e.key, e.value) else p;
      assert AllFit(edits[1..]) by {
        forall i | 0 <= i < |edits[1..]| ensures Fits(edits[1..][i].key, edits[1..][i].value) {
          assert edits[1..][i] == edits[i + 1];
        }
      }
      AfterEditsPerKey(next, edits[1..], k);
    }
  }

  /** Turning notifications off and then auto-save off, both writes accepted,
      leaves both off. */
  lemma TwoSwitchesOff(p: Preferences)
    ensures AllFit([Edit(NotificationsKey, Flag(false), Written), Edit(AutoSaveKey, Flag(false), Written)])
    ensures var q := AfterEdits(p, [Edit(NotificationsKey, Flag(false), Written), Edit(AutoSaveKey, Flag(false), Written)]);
            !q.notifications && !q.autoSave && q.theme == p.theme && q.language == p.language
  {
  }

  /** What the page shows: a spinner while loading, else the form for the
      current record, with the "Saving preferences..." banner while a write runs. */
  datatype SettingsView = LoadingSpinner | SettingsForm(shown: Preferences, savingBanner: bool)

  function Render(loading: bool, saving: bool, p: Preferences): (v: SettingsView)
    ensures v.LoadingSpinner? <==> loading
    ensures !loading ==> v.shown == p && (v.savingBanner <==> saving)
  {
    if loading then LoadingSpinner else SettingsForm(p, saving)
  }

  /** The page's state. */
  class SettingsPage {
    var preferences: Preferences
    var loading: bool
    var saving: bool

    constructor ()
      ensures preferences == Defaults && loading && !saving
    {
      preferences := Defaults;
      loading := true;
      saving := false;
    }

    /** `fetchPreferences`, given the user and the store's answer to the select. */
    method FetchPreferences(user: Option<User>, result: ReadResult<PreferencesColumn>)
      modifies this
      ensures user.None? ==> preferences == old(preferences) && loading == old(loading)
      ensures user.Some? ==> preferences == Fetched(old(preferences), result) && !loading
      ensures saving == old(saving)
    {
      if user.None? {
        return;
      }
      match result {
        case Thrown =>
          // logged only
        case Answer(data, error) =>
          if IsReadFailure(error) {
            // logged only
          } else if data.Some? && data.value.PreferencesObject? {
            preferences := Merge(preferences, data.value.stored);
          }
      }
      loading := false;
    }

    /** `savePreferences` up to its await: raises `saving` and sends the whole snapshot. */
    method BeginSave(user: Option<User>, snapshot: Preferences) returns (sent: Option<PreferencesUpsert>)
      modifies this
      ensures user.None? ==> sent.None? && saving == old(saving)
      ensures user.Some? ==> sent == Some(PreferencesUpsert(user.value.id, snapshot)) && saving
      ensures preferences == old(preferences) && loading == old(loading)
    {
      if user.None? {
        return None;
      }
      saving := true;
      sent := Some(PreferencesUpsert(user.value.id, snapshot));
    }

    /** `savePreferences` after its await: the snapshot replaces the record only
      when the write was accepted; `saving` drops on every path. */
    method FinishSave(snapshot: Preferences, result: WriteResult)
      modifies this
      ensures preferences == (if result.Written? then snapshot else old(preferences))
      ensures !saving && loading == old(loading)
    {
      match result {
        case Written =>
          preferences := snapshot;
        case Rejected(_) =>
          // error toast only
        case WriteThrown =>
          // error toast only
      }
      saving := false;
    }

    /** `handlePreferenceChange` run to completion: the snapshot is the current
      record with key k changed, it is sent whole, and it becomes the record
      only if the store accepts it. */
    method ChangePreference(user: Option<User>, k: Key, v: Value, result: WriteResult)
      returns (sent: Option<PreferencesUpsert>)
      requires Fits(k, v)
      modifies this
      ensures user.None? ==> sent.None? && preferences == old(preferences) && saving == old(saving)
      ensures user.Some? ==> sent == Some(PreferencesUpsert(user.value.id, Set(old(preferences), k, v)))
      ensures user.Some? ==> preferences == AfterEdits(old(preferences), [Edit(k, v, result)]) && !saving
      ensures loading == old(loading)
    {
      var snapshot := Set(preferences, k, v);
      sent := BeginSave(user, snapshot);
      if sent.Some? {
        FinishSave(snapshot, result);
      }
    }
  }
}
