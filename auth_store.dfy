/** From src/store/authStore.ts: the profile update, whose only logic is
    the name split and the guard on the current user, and the email
    verification accessor. The sign-in, sign-up and session-restore flows
    are not part of this model. */
module AuthStore {
  import opened Common

  /** `s.split(sep)` for a one-character separator: the pieces between
      separators, one more than there are separators. */
  function Split(s: string, sep: char): (parts: seq<string>)
    ensures |parts| >= 1
    ensures forall i :: 0 <= i < |parts| ==> sep !in parts[i]
  {
    if s == [] then [""]
    else
      var rest := Split(s[1..], sep);
      if s[0] == sep then [""] + rest
      else [[s[0]] + rest[0]] + rest[1..]
  }

  /** `parts.join(sep)` */
  function Join(parts: seq<string>, sep: char): string
    requires |parts| >= 1
  {
    if |parts| == 1 then parts[0] else parts[0] + [sep] + Join(parts[1..], sep)
  }

  /** Splitting loses nothing: joining the pieces gives the text back. */
  lemma {:induction false} SplitJoin(s: string, sep: char)
    ensures Join(Split(s, sep), sep) == s
  {
    if s != [] {
      var rest := Split(s[1..], sep);
      SplitJoin(s[1..], sep);
      if s[0] == sep {
        assert Split(s, sep)[1..] == rest;
        assert s == [s[0]] + s[1..];
      } else {
        var parts := Split(s, sep);
        assert parts[1..] == rest[1..];
        if |rest| == 1 {
          assert s == [s[0]] + rest[0];
        } else {
          assert Join(rest, sep) == rest[0] + [sep] + Join(rest[1..], sep);
          assert s == [s[0]] + s[1..];
        }
      }
    }
  }

  /** `[fname, lname = '']` of the split */
  datatype NameParts = NameParts(fname: string, lname: string)

  /** `const [fname, lname = ''] = (updates.name || '').split(' ')` */
  function SplitName(name: Option<string>): (r: NameParts)
    ensures ' ' !in r.fname && ' ' !in r.lname
  {
    var parts := Split(name.GetOr(""), ' ');
    NameParts(parts[0], if |parts| >= 2 then parts[1] else "")
  }

  /** A name without a space is all first name; otherwise the first name is
      the text before the first space, the last name the text up to the
      second space, and whatever follows that is dropped. */
  lemma SplitNameShape(name: string)
    ensures ' ' !in name ==> SplitName(Some(name)) == NameParts(name, "")
    ensures ' ' in name ==> exists rest: string ::
      && name == SplitName(Some(name)).fname + " " + SplitName(Some(name)).lname + rest
      && (rest == [] || rest[0] == ' ')
  {
    var parts := Split(name, ' ');
    SplitJoin(name, ' ');
    if |parts| == 1 {
      assert name == parts[0];
    } else {
      assert name == parts[0] + " " + Join(parts[1..], ' ');
      if |parts| == 2 {
        assert name == parts[0] + " " + parts[1] + "";
      } else {
        var rest := " " + Join(parts[2..], ' ');
        assert Join(parts[1..], ' ') == parts[1] + rest by {
          assert parts[1..][1..] == parts[2..];
        }
        assert name == parts[0] + " " + parts[1] + rest;
      }
    }
  }

  /** A missing or empty name sends empty first and last names. */
  lemma NoNameGivesEmptyParts(name: Option<string>)
    requires name.None? || name.value == ""
    ensures SplitName(name) == NameParts("", "")
  {
  }

  datatype UserMetadata = UserMetadata(emailVerified: Option<bool>)
  datatype AuthUser = AuthUser(id: string, metadata: Option<UserMetadata>)
  /** The `data` of an auth response. */
  datatype AuthData = AuthData(user: Option<AuthUser>)

  /** `data?.user?.user_metadata?.email_verified`: None (undefined) when any
      level is missing. */
  function CheckIfEmailIsVerified(data: Option<AuthData>): (r: Option<bool>)
    ensures r.Some? <==> (data.Some? && data.value.user.Some? && data.value.user.value.metadata.Some?
                          && data.value.user.value.metadata.value.emailVerified.Some?)
    ensures r.Some? ==> r == data.value.user.value.metadata.value.emailVerified
  {
    if data.None? || data.value.user.None? || data.value.user.value.metadata.None? then None
    else data.value.user.value.metadata.value.emailVerified
  }

  /** The `data` sent to `auth.updateUser`. */
  datatype ProfileUpdate = ProfileUpdate(fname: string, lname: string, org: Option<string>)

  class AuthStore {
    var user: Option<AuthUser>
    /** The `auth.updateUser` calls issued, in order. */
    var sent: seq<ProfileUpdate>

    constructor (user: Option<AuthUser>)
      ensures this.user == user && sent == []
    {
      this.user, sent := user, [];
    }

    /** `updateProfile`: `fault` is the update's error, `refreshed` the user
        `auth.getUser()` returns afterwards (None when it returns none). */
    method UpdateProfile(name: Option<string>, organization: Option<string>, fault: Option<string>,
                         refreshed: Option<AuthUser>)
      modifies this
      ensures old(user).None? ==> sent == old(sent)
      ensures old(user).Some? ==>
        var parts := SplitName(name);
        sent == old(sent) + [ProfileUpdate(parts.fname, parts.lname, organization)]
      ensures user == if old(user).Some? && fault.None? && refreshed.Some? then refreshed else old(user)
    {
      if user.None? {
        return;
      }
      var parts := SplitName(name);
      sent := sent + [ProfileUpdate(parts.fname, parts.lname, organization)];
      if fault.Some? {
        return;
      }
      if refreshed.Some? {
        user := refreshed;
      }
    }
  }
}
