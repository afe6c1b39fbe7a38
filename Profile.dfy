/** The profile page: the persisted profile row kept apart from an edit
    buffer (display name and bio), fetch, save, reset, and the fallbacks the
    page shows when a name is missing. */
module Profile {

  import opened Common

  /** A row of the `profiles` table. */
  datatype ProfileRow = ProfileRow(
    id: string, userId: string,
    displayName: Option<string>, bio: Option<string>, avatarUrl: Option<string>,
    createdAt: string, updatedAt: string)

  /** The row a save sends: the user's id and the edit buffer. */
  datatype ProfileUpsert = ProfileUpsert(userId: string, displayName: string, bio: string)

  /** The edit buffer: the two text fields of the form. */
  datatype Buffer = Buffer(displayName: string, bio: string)

  /** `s || ""` on a nullable string. */
  function OrEmpty(s: Option<string>): (r: string)
    ensures s.Some? ==> r == s.value
    ensures s.None? ==> r == ""
  {
    if s.Some? then s.value else ""
  }

  /** The buffer a row fills (on fetch) or restores (on reset): each field as
      stored, "" where the row has none or there is no row. */
  function BufferOf(row: Option<ProfileRow>): (b: Buffer)
    ensures row.None? ==> b == Buffer("", "")
    ensures row.Some? ==> b.displayName == OrEmpty(row.value.displayName) && b.bio == OrEmpty(row.value.bio)
  {
    if row.None? then Buffer("", "")
    else Buffer(OrEmpty(row.value.displayName), OrEmpty(row.value.bio))
  }

  /** What a save sends for a user and a buffer. */
  function SentFor(userId: string, b: Buffer): (u: ProfileUpsert)
    ensures u.userId == userId && Buffer(u.displayName, u.bio) == b
  {
    ProfileUpsert(userId, b.displayName, b.bio)
  }

  /** The store's insert-or-update keyed by user id: an existing row of that
      user keeps its id, avatar and creation time and takes the sent fields;
      otherwise a new row is made. */
  function Upserted(existing: Option<ProfileRow>, u: ProfileUpsert, newId: string, now: string): (row: ProfileRow)
    ensures row.userId == u.userId
    ensures row.displayName == Some(u.displayName) && row.bio == Some(u.bio)
    ensures existing.Some? && existing.value.userId == u.userId ==>
              row.id == existing.value.id && row.avatarUrl == existing.value.avatarUrl
              && row.createdAt == existing.value.createdAt
  {
    if existing.Some? && existing.value.userId == u.userId then
      existing.value.(displayName := Some(u.displayName), bio := Some(u.bio), updatedAt := now)
    else
      ProfileRow(newId, u.userId, Some(u.displayName), Some(u.bio), None, now, now)
  }

  /** Save then refetch: the row the store now holds fills the buffer with
      exactly what was typed, empty fields included. */
  lemma SavedBufferComesBack(existing: Option<ProfileRow>, userId: string, b: Buffer, newId: string, now: string)
    ensures BufferOf(Some(Upserted(existing, SentFor(userId, b), newId, now))) == b
  {
  }

  /** Saving the same buffer twice leaves the row's identity and the buffer it
      fills as after the first save. */
  lemma SaveTwiceSameDisplay(existing: Option<ProfileRow>, userId: string, b: Buffer,
                             id1: string, t1: string, id2: string, t2: string)
    ensures var first := Upserted(existing, SentFor(userId, b), id1, t1);
            var second := Upserted(Some(first), SentFor(userId, b), id2, t2);
            second.id == first.id && second.createdAt == first.createdAt
            && BufferOf(Some(second)) == BufferOf(Some(first))
  {
  }

  const AnonymousTitle: string := "Anonymous User"

  /** The card title: the display name, or "Anonymous User" when it is empty. */
  function Title(displayName: string): (t: string)
    ensures t != ""
    ensures displayName != "" ==> t == displayName
    ensures displayName == "" ==> t == AnonymousTitle
  {
    if displayName != "" then displayName else AnonymousTitle
  }

  /** Upper case on ASCII letters; every other character is left as it is. */
  function Upper(c: char): (u: char)
    ensures 'a' <= c <= 'z' ==> 'A' <= u <= 'Z' && u as int == c as int - 32
    ensures !('a' <= c <= 'z') ==> u == c
  {
    if 'a' <= c <= 'z' then (c as int - 32) as char else c
  }

  /** The avatar fallback: the upper-cased first character of the display name,
      or, when the name is empty, of the user's e-mail; nothing when neither
      has one. */
  function AvatarInitial(displayName: string, user: Option<User>): (s: string)
    ensures |s| <= 1
    ensures s != "" ==> !('a' <= s[0] <= 'z')
    ensures displayName != "" ==> s == [Upper(displayName[0])]
    ensures displayName == "" ==>
              (s != "" <==> user.Some? && user.value.email.Some? && user.value.email.value != "")
    ensures displayName == "" && s != "" ==> s == [Upper(user.value.email.value[0])]
  {
    if displayName != "" then [Upper(displayName[0])]
    else if user.Some? && user.value.email.Some? && user.value.email.value != "" then
      [Upper(user.value.email.value[0])]
    else ""
  }

  /** The shown user id: `id.slice(0, 8)`, its first eight characters or all of a shorter id. */
  function IdPrefix(id: string): (p: string)
    ensures |p| == if |id| < 8 then |id| else 8
    ensures p == id[..|p|]
  {
    if |id| < 8 then id else id[..8]
  }

  /** The avatar image source: the stored URL, or "" without one. */
  function AvatarSource(profile: Option<ProfileRow>): (src: string)
    ensures profile.Some? && profile.value.avatarUrl.Some? ==> src == profile.value.avatarUrl.value
    ensures profile.None? || profile.value.avatarUrl.None? ==> src == ""
  {
    if profile.Some? then OrEmpty(profile.value.avatarUrl) else ""
  }

  datatype SaveButton = SaveButton(caption: string, enabled: bool)

  /** The save button: disabled and labelled "Saving..." while a save runs. */
  function SaveButtonFor(saving: bool): (b: SaveButton)
    ensures b.enabled <==> !saving
    ensures b.caption == if saving then "Saving..." else "Save Changes"
  {
    if saving then SaveButton("Saving...", false) else SaveButton("Save Changes", true)
  }

  /** What the page shows: a spinner while loading, else the card and the form. */
  datatype ProfileView =
    | LoadingSpinner
    | ProfileForm(title: string, initial: string, avatarSrc: string, shownId: string,
                  fields: Buffer, button: SaveButton)

  /** The render: the form shows the edit buffer, not the persisted row, and
      the title and initial fall back as above. */
  function Render(loading: bool, saving: bool, profile: Option<ProfileRow>, b: Buffer, user: Option<User>): (v: ProfileView)
    ensures v.LoadingSpinner? <==> loading
    ensures !loading ==> v.fields == b
    ensures !loading ==> v.title == Title(b.displayName) && v.initial == AvatarInitial(b.displayName, user)
    ensures !loading ==> v.avatarSrc == AvatarSource(profile)
    ensures !loading ==> v.shownId == if user.Some? then IdPrefix(user.value.id) else ""
    ensures !loading ==> (v.button.enabled <==> !saving)
  {
    if loading then LoadingSpinner
    else ProfileForm(Title(b.displayName), AvatarInitial(b.displayName, user), AvatarSource(profile),
                     if user.Some? then IdPrefix(user.value.id) else "", b, SaveButtonFor(saving))
  }

  /** The page's state: the persisted row, the edit buffer, and two flags. */
  class ProfilePage {
    var profile: Option<ProfileRow>
    var displayName: string
    var bio: string
    var loading: bool
    var saving: bool

    constructor ()
      ensures profile.None? && displayName == "" && bio == ""
      ensures loading && !saving
    {
      profile := None;
      displayName := "";
      bio := "";
      loading := true;
      saving := false;
    }

    /** `fetchProfile`, given the user and the store's answer to the select: a
      delivered row becomes the profile and fills the buffer; every other
      outcome leaves both alone. `loading` drops on every path with a user. */
    method FetchProfile(user: Option<User>, result: ReadResult<ProfileRow>)
      modifies this
      ensures user.None? ==> profile == old(profile) && displayName == old(displayName)
                             && bio == old(bio) && loading == old(loading)
      ensures user.Some? && Delivered(result).Some? ==>
                profile == Delivered(result) && Buffer(displayName, bio) == BufferOf(profile)
      ensures user.Some? && Delivered(result).None? ==>
                profile == old(profile) && displayName == old(displayName) && bio == old(bio)
      ensures user.Some? ==> !loading
      ensures saving == old(saving)
    {
      if user.None? {
        return;
      }
      match result {
        case Thrown =>
          // logged only
        case Answer(data, error) =>
          if IsReadFailure(error) {
            // logged, error toast
          } else if data.Some? {
            profile := data;
            var b := BufferOf(data);
            displayName, bio := b.displayName, b.bio;
          }
      }
      loading := false;
    }

    /** Typing in the display-name field. */
    method EditDisplayName(s: string)
      modifies this
      ensures displayName == s
      ensures profile == old(profile) && bio == old(bio) && loading == old(loading) && saving == old(saving)
    {
      displayName := s;
    }

    /** Typing in the bio field. */
    method EditBio(s: string)
      modifies this
      ensures bio == s
      ensures profile == old(profile) && displayName == old(displayName) && loading == old(loading) && saving == old(saving)
    {
      bio := s;
    }

    /** `handleSave` up to its await: raises `saving` and sends the buffer. */
    method BeginSave(user: Option<User>) returns (sent: Option<ProfileUpsert>)
      modifies this
      ensures user.None? ==> sent.None? && saving == old(saving)
      ensures user.Some? ==> sent == Some(SentFor(user.value.id, Buffer(displayName, bio))) && saving
      ensures profile == old(profile) && displayName == old(displayName) && bio == old(bio) && loading == old(loading)
    {
      if user.None? {
        return None;
      }
      saving := true;
      sent := Some(ProfileUpsert(user.value.id, displayName, bio));
    }

    /** `handleSave` after its await: asks for a refetch exactly when the write
      was accepted; the row and the buffer are left alone on every path. */
    method FinishSave(result: WriteResult) returns (refetch: bool)
      modifies this
      ensures refetch <==> result.Written?
      ensures !saving
      ensures profile == old(profile) && displayName == old(displayName) && bio == old(bio) && loading == old(loading)
    {
      refetch := false;
      match result {
        case Written =>
          refetch := true;
        case Rejected(_) =>
          // error toast only
        case WriteThrown =>
          // error toast only
      }
      saving := false;
    }

    /** `handleSave` run to completion. */
    method Save(user: Option<User>, result: WriteResult) returns (sent: Option<ProfileUpsert>, refetch: bool)
      modifies this
      ensures user.None? ==> sent.None? && !refetch && saving == old(saving)
      ensures user.Some? ==> sent == Some(SentFor(user.value.id, Buffer(old(displayName), old(bio))))
      ensures user.Some? ==> (refetch <==> result.Written?) && !saving
      ensures profile == old(profile) && displayName == old(displayName) && bio == old(bio) && loading == old(loading)
    {
      refetch := false;
      sent := BeginSave(user);
      if sent.Some? {
        refetch := FinishSave(result);
      }
    }

    /** The Reset button: the buffer goes back to the profile's fields ("" when
      missing); the profile itself is untouched. */
    method Reset()
      modifies this
      ensures Buffer(displayName, bio) == BufferOf(profile)
      ensures profile == old(profile) && loading == old(loading) && saving == old(saving)
    {
      var b := BufferOf(profile);
      displayName, bio := b.displayName, b.bio;
    }
  }
}
