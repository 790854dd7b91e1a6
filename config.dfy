/**
 * The bot's list of authorised Discord user ids. The `AUTHORIZED_USERS`
 * setting is a comma-separated string; each field is stripped of surrounding
 * whitespace and blank fields are dropped. A user is authorised when their id
 * is exactly one of the resulting entries.
 */
module Config {
  import opened Wrappers
  import opened Strings

  /** Value used when the `AUTHORIZED_USERS` setting is absent. */
  const DefaultAuthorizedUsers: string := ""

  /**
   * The stripped, non-blank fields, in their original order: the filtering
   * list comprehension, applied to fields that are already split.
   */
  function KeepNonBlank(fields: seq<string>): (users: seq<string>)
    ensures |users| <= |fields|
    ensures forall i :: 0 <= i < |users| ==> users[i] != "" && Stripped(users[i])
  {
    if fields == [] then []
    else
      var field := Strip(fields[0]);
      (if field != "" then [field] else []) + KeepNonBlank(fields[1..])
  }

  /** The entries are exactly the non-empty stripped fields. */
  lemma KeepNonBlankMembers(fields: seq<string>, u: string)
    ensures u in KeepNonBlank(fields) <==> u != "" && exists j :: 0 <= j < |fields| && Strip(fields[j]) == u
  {
    var users := KeepNonBlank(fields);
    if u in users {
      var k :| 0 <= k < |users| && users[k] == u;
      var j := KeepNonBlankOrigin(fields, k);
    }
    if u != "" && exists j :: 0 <= j < |fields| && Strip(fields[j]) == u {
      var j :| 0 <= j < |fields| && Strip(fields[j]) == u;
      var k := KeepNonBlankKeeps(fields, j);
    }
  }

  /** Every entry comes from some field. */
  lemma {:induction false} KeepNonBlankOrigin(fields: seq<string>, k: nat) returns (j: nat)
    requires k < |KeepNonBlank(fields)|
    ensures j < |fields| && Strip(fields[j]) == KeepNonBlank(fields)[k]
  {
    var head := if Strip(fields[0]) != "" then [Strip(fields[0])] else [];
    var rest := KeepNonBlank(fields[1..]);
    assert KeepNonBlank(fields) == head + rest;
    if k < |head| {
      j := 0;
    } else {
      var i := KeepNonBlankOrigin(fields[1..], k - |head|);
      j := i + 1;
      assert fields[j] == fields[1..][i];
    }
  }

  /** Every non-blank field gives an entry. */
  lemma {:induction false} KeepNonBlankKeeps(fields: seq<string>, j: nat) returns (k: nat)
    requires j < |fields| && Strip(fields[j]) != ""
    ensures k < |KeepNonBlank(fields)| && KeepNonBlank(fields)[k] == Strip(fields[j])
  {
    var head := if Strip(fields[0]) != "" then [Strip(fields[0])] else [];
    var rest := KeepNonBlank(fields[1..]);
    assert KeepNonBlank(fields) == head + rest;
    if j == 0 {
      k := 0;
    } else {
      assert fields[1..][j - 1] == fields[j];
      var i := KeepNonBlankKeeps(fields[1..], j - 1);
      k := i + |head|;
    }
  }

  /** Filtering a concatenation filters each part: the left-to-right order of the fields is kept. */
  lemma {:induction false} KeepNonBlankAppend(a: seq<string>, b: seq<string>)
    ensures KeepNonBlank(a + b) == KeepNonBlank(a) + KeepNonBlank(b)
  {
    if a != [] {
      assert (a + b)[0] == a[0];
      assert (a + b)[1..] == a[1..] + b;
      KeepNonBlankAppend(a[1..], b);
      var head := if Strip(a[0]) != "" then [Strip(a[0])] else [];
      assert KeepNonBlank(a + b) == head + (KeepNonBlank(a[1..]) + KeepNonBlank(b));
      assert KeepNonBlank(a) == head + KeepNonBlank(a[1..]);
    } else {
      assert a + b == b;
    }
  }

  /** Every entry equals its own `strip()` and none is empty. */
  lemma EntriesAreStripped(setting: Option<string>)
    ensures forall i :: 0 <= i < |AuthorizedUsers(setting)| ==>
      AuthorizedUsers(setting)[i] != "" && Strip(AuthorizedUsers(setting)[i]) == AuthorizedUsers(setting)[i]
  {
    var users := AuthorizedUsers(setting);
    forall i | 0 <= i < |users| ensures Strip(users[i]) == users[i] {
      StripFixed(users[i]);
    }
  }

  /** The comma-separated fields of the setting's value (absent: the empty string). */
  function Fields(setting: Option<string>): (fields: seq<string>)
    ensures |fields| == Occurrences(setting.GetOr(DefaultAuthorizedUsers), ',') + 1
  {
    Split(setting.GetOr(DefaultAuthorizedUsers), ',')
  }

  /** `AUTHORIZED_USERS`, computed from the setting's value. */
  function AuthorizedUsers(setting: Option<string>): (users: seq<string>)
    ensures |users| <= Occurrences(setting.GetOr(DefaultAuthorizedUsers), ',') + 1
  {
    KeepNonBlank(Fields(setting))
  }

  /** `is_authorized`: an exact, untrimmed membership test. */
  predicate IsAuthorized(users: seq<string>, userId: string)
    ensures IsAuthorized(users, userId) <==> exists i :: 0 <= i < |users| && users[i] == userId
  {
    userId in users
  }

  /**
   * A user id is authorised exactly when it is non-empty and equals the
   * stripped form of one of the comma-separated fields of the setting.
   */
  lemma AuthorizedIff(setting: Option<string>, userId: string)
    ensures IsAuthorized(AuthorizedUsers(setting), userId) <==>
      userId != "" && exists j :: 0 <= j < |Fields(setting)| && Strip(Fields(setting)[j]) == userId
  {
    KeepNonBlankMembers(Fields(setting), userId);
  }

  /**
   * The query is not trimmed: an id with leading or trailing whitespace is
   * never authorised, since every entry is already stripped.
   */
  lemma UntrimmedIdRejected(setting: Option<string>, userId: string)
    requires Strip(userId) != userId
    ensures !IsAuthorized(AuthorizedUsers(setting), userId)
  {
    EntriesAreStripped(setting);
  }

  /** An unset setting authorises nobody. */
  lemma UnsetSettingAuthorizesNobody(userId: string)
    ensures AuthorizedUsers(None) == []
    ensures !IsAuthorized(AuthorizedUsers(None), userId)
  {
  }

  /** A setting made only of commas and whitespace (the empty string among them) authorises nobody. */
  lemma BlankSettingAuthorizesNobody(raw: string, userId: string)
    requires forall i :: 0 <= i < |raw| ==> raw[i] == ',' || IsSpace(raw[i])
    ensures AuthorizedUsers(Some(raw)) == []
    ensures !IsAuthorized(AuthorizedUsers(Some(raw)), userId)
  {
    BlankPieces(raw);
    AllBlankKeepsNothing(Split(raw, ','));
  }

  /** Fields that are all blank give no entries. */
  lemma {:induction false} AllBlankKeepsNothing(fields: seq<string>)
    requires forall j :: 0 <= j < |fields| ==> Strip(fields[j]) == ""
    ensures KeepNonBlank(fields) == []
  {
    if fields != [] {
      AllBlankKeepsNothing(fields[1..]);
    }
  }

  /** Every piece of a string of commas and whitespace is all whitespace. */
  lemma {:induction false} BlankPieces(raw: string)
    requires forall i :: 0 <= i < |raw| ==> raw[i] == ',' || IsSpace(raw[i])
    ensures forall j :: 0 <= j < |Split(raw, ',')| ==> Strip(Split(raw, ',')[j]) == ""
  {
    if raw != [] {
      BlankPieces(raw[1..]);
      var rest := Split(raw[1..], ',');
      if raw[0] != ',' {
        var head := [raw[0]] + rest[0];
        StripEmpty(rest[0]);
        StripEmpty(head);
        assert forall i :: 0 <= i < |head| ==> IsSpace(head[i]) by {
          forall i | 0 <= i < |head| ensures IsSpace(head[i]) {
            if i > 0 { assert head[i] == rest[0][i - 1]; }
          }
        }
        assert Split(raw, ',')[1..] == rest[1..];
      }
    }
  }
}
