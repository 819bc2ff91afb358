/** `POST /api/users`: find a user by username or create one, and answer with the
    user's id, username and profile picture as a data URL. */
module Profiles {
  import opened Wrappers
  import opened Upload

  /** The store's identifier of a user document. */
  type ObjectId = string

  /** A stored profile picture: base64 text and its MIME type. */
  datatype Picture = Picture(data: string, contentType: string)

  /** A stored user document. */
  datatype User = User(id: ObjectId, username: string, profilePic: Picture)

  /** The JSON body of a successful answer. */
  datatype Profile = Profile(id: ObjectId, username: string, profilePicUrl: string)

  /** The route's answer: 200 with a profile, or an error status with the error's message. */
  datatype Response = Ok(profile: Profile) | Error(status: nat, message: string)

  const BadRequest: nat := 400

  /** The MIME type recorded with the default avatar. */
  const DefaultContentType := "image/png"

  /** The template `data:<contentType>;base64,<data>` the route builds picture URLs with. */
  function DataUrl(p: Picture): (url: string)
    ensures |url| == 13 + |p.contentType| + |p.data|
    ensures url[..5] == "data:" && url[5..5 + |p.contentType|] == p.contentType
    ensures url[5 + |p.contentType|..13 + |p.contentType|] == ";base64,"
    ensures url[13 + |p.contentType|..] == p.data
  {
    "data:" + p.contentType + ";base64," + p.data
  }

  /** The position of the first `c` in `s`, if any. */
  function IndexOf(s: string, c: char): (r: Option<nat>)
    ensures r.Some? ==> r.value < |s| && s[r.value] == c && c !in s[..r.value]
    ensures r.None? ==> c !in s
  {
    if s == [] then None
    else if s[0] == c then Some(0)
    else match IndexOf(s[1..], c)
      case None => None
      case Some(k) =>
        assert s[..k + 1] == [s[0]] + s[1..][..k];
        Some(k + 1)
  }

  /** `IndexOf` finds the first occurrence. */
  lemma IndexOfFirst(s: string, c: char, n: nat)
    requires n < |s| && s[n] == c && c !in s[..n]
    ensures IndexOf(s, c) == Some(n)
  {
  }

  /** Reads a data URL back into the picture it was built from: the content type runs up
      to the first `;`, which must open `;base64,`. */
  function ParseDataUrl(url: string): (r: Option<Picture>)
    ensures r.Some? ==> DataUrl(r.value) == url && ';' !in r.value.contentType
  {
    if |url| < 5 || url[..5] != "data:" then None
    else
      var rest := url[5..];
      match IndexOf(rest, ';')
      case None => None
      case Some(k) =>
        if |rest| - k < 8 || rest[k..k + 8] != ";base64," then None
        else
          var p := Picture(rest[k + 8..], rest[..k]);
          assert url == url[..5] + rest[..k] + rest[k..k + 8] + rest[k + 8..];
          Some(p)
  }

  /** A picture whose content type has no `;` is recovered from its data URL. */
  lemma DataUrlRoundTrip(p: Picture)
    requires ';' !in p.contentType
    ensures ParseDataUrl(DataUrl(p)) == Some(p)
  {
    var url := DataUrl(p);
    var rest := url[5..];
    assert rest == p.contentType + ";base64," + p.data;
    assert rest[..|p.contentType|] == p.contentType;
    assert rest[|p.contentType|] == ';';
    IndexOfFirst(rest, ';', |p.contentType|);
    assert rest[|p.contentType|..|p.contentType| + 8] == ";base64,";
    assert rest[|p.contentType| + 8..] == p.data;
  }

  /** Distinct pictures get distinct URLs (for content types without `;`). */
  lemma DataUrlInjective(p: Picture, q: Picture)
    requires ';' !in p.contentType && ';' !in q.contentType
    requires DataUrl(p) == DataUrl(q)
    ensures p == q
  {
    DataUrlRoundTrip(p);
    DataUrlRoundTrip(q);
  }

  /** The answer's body for a stored user: its id, its username and a URL from which
      its picture can be read back. */
  function ProfileOf(u: User): (p: Profile)
    ensures p.id == u.id && p.username == u.username
    ensures ';' !in u.profilePic.contentType ==> ParseDataUrl(p.profilePicUrl) == Some(u.profilePic)
  {
    var p := Profile(u.id, u.username, DataUrl(u.profilePic));
    assert ';' !in u.profilePic.contentType ==> ParseDataUrl(p.profilePicUrl) == Some(u.profilePic) by {
      if ';' !in u.profilePic.contentType {
        DataUrlRoundTrip(u.profilePic);
      }
    }
    p
  }

  /** The picture a new user is created with: the upload's base64 text and declared MIME
      type, or else the default avatar's base64 text as `image/png`. */
  function NewPicture(file: Option<File>, base64: seq<byte> -> string, defaultAvatar: seq<byte>): (p: Picture)
    ensures file.Some? ==> p.contentType == file.value.mimetype && p.data == base64(file.value.buffer)
    ensures file.None? ==> p.contentType == DefaultContentType && p.data == base64(defaultAvatar)
  {
    match file
    case Some(f) => Picture(base64(f.buffer), f.mimetype)
    case None => Picture(base64(defaultAvatar), DefaultContentType)
  }

  /** A user created without an upload is answered with the default avatar as a PNG
      data URL. */
  lemma DefaultAvatarUrl(id: ObjectId, username: string, base64: seq<byte> -> string,
                         defaultAvatar: seq<byte>)
    ensures ProfileOf(User(id, username, NewPicture(None, base64, defaultAvatar)))
      == Profile(id, username, "data:image/png;base64," + base64(defaultAvatar))
  {
    var pic := Picture(base64(defaultAvatar), DefaultContentType);
    assert NewPicture(None, base64, defaultAvatar) == pic;
    calc {
      DataUrl(pic);
      "data:" + "image/png" + ";base64," + base64(defaultAvatar);
      { assert "data:" + "image/png" + ";base64," == "data:image/png;base64,"; }
      "data:image/png;base64," + base64(defaultAvatar);
    }
  }

  /** The user collection, keyed by the unique username. */
  class UserStore {
    var users: map<string, User>

    /** Each user is filed under its own username. */
    ghost predicate Valid()
      reads this
    {
      forall name :: name in users ==> users[name].username == name
    }

    constructor ()
      ensures Valid() && users == map[]
    {
      users := map[];
    }

    /** `POST /api/users`. The upload is checked first; an existing username is answered
        from the store whatever was uploaded; otherwise a user is created with `newId`
        (the identifier the store assigns) and becomes visible only if the write succeeds.
        `base64` stands for the byte-to-base64 conversion and `defaultAvatar` for the
        default avatar file's bytes. */
    method PostUser(username: string, file: Option<File>, base64: seq<byte> -> string,
                    defaultAvatar: seq<byte>, newId: ObjectId, save: Outcome)
      returns (r: Response)
      requires Valid()
      modifies this
      ensures Valid()
      ensures CheckUpload(file).Fail? ==>
        users == old(users) && r == Error(BadRequest, CheckUpload(file).error)
      ensures CheckUpload(file) == Pass && username in old(users) ==>
        users == old(users) && r == Ok(ProfileOf(old(users)[username]))
      ensures CheckUpload(file) == Pass && username !in old(users) && save.Fail? ==>
        users == old(users) && r == Error(InternalServerError, save.error)
      ensures CheckUpload(file) == Pass && username !in old(users) && save == Pass ==>
        var u := User(newId, username, NewPicture(file, base64, defaultAvatar));
        users == old(users)[username := u] && r == Ok(ProfileOf(u))
    {
      var checked := CheckUpload(file);
      if checked.Fail? {
        return Error(BadRequest, checked.error);
      }
      if username in users {
        return Ok(ProfileOf(users[username]));
      }
      var u := User(newId, username, NewPicture(file, base64, defaultAvatar));
      if save.Fail? {
        return Error(InternalServerError, save.error);
      }
      users := users[username := u];
      r := Ok(ProfileOf(u));
    }
  }
}
