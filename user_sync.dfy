/**
 * `checkUser` (lib/checkUser.js): get or create the application's user
 * record for the person the identity provider reports as signed in.
 *
 * The user table is a map keyed by `clerkUserId` (a unique column). The
 * identity provider's answer and the store errors that the function's
 * `catch` swallows are inputs.
 */
module UserSync {
  import opened Wrappers
  import opened JsStrings

  /** The fields of the identity provider's user object that `checkUser` reads. */
  datatype ClerkUser = ClerkUser(
    id: string,
    firstName: Option<string>,
    lastName: Option<string>,
    imageUrl: string,
    emailAddresses: Option<seq<string>>)

  /** What `currentUser()` does: resolve to a user, to nothing, or throw. */
  datatype Identity = SignedIn(user: ClerkUser) | SignedOut | IdentityFails

  /** Which store call, if any, throws. */
  datatype StoreFault = NoFault | LookupFails | CreateFails

  datatype User = User(clerkUserId: string, name: string, imageUrl: string, email: string)

  /** The value `checkUser` returns and the user table it leaves. */
  datatype Outcome = Outcome(result: Option<User>, users: map<string, User>)

  /** Every record is stored under its own `clerkUserId`. */
  ghost predicate KeyedByClerkId(users: map<string, User>)
  {
    forall key :: key in users ==> users[key].clerkUserId == key
  }

  /** `` `${firstName ?? ""} ${lastName ?? ""}`.trim() ``. */
  function DisplayName(firstName: Option<string>, lastName: Option<string>): (r: string)
    ensures IsTrimmed(r)
    ensures |r| <= |firstName.GetOr("")| + 1 + |lastName.GetOr("")|
  {
    Trim(firstName.GetOr("") + " " + lastName.GetOr(""))
  }

  /** `emailAddresses?.[0]?.emailAddress ?? ""`. */
  function PrimaryEmail(emailAddresses: Option<seq<string>>): (r: string)
    ensures emailAddresses.Some? && |emailAddresses.value| > 0 ==> r == emailAddresses.value[0]
    ensures emailAddresses.None? || emailAddresses.value == [] ==> r == ""
  {
    match emailAddresses
    case Some(addresses) => if |addresses| > 0 then addresses[0] else ""
    case None => ""
  }

  /** The record `db.user.create` is given for a first sign-in. */
  function NewUser(u: ClerkUser): (r: User)
    ensures r.clerkUserId == u.id && r.imageUrl == u.imageUrl
    ensures r.name == DisplayName(u.firstName, u.lastName)
    ensures r.email == PrimaryEmail(u.emailAddresses)
  {
    User(u.id, DisplayName(u.firstName, u.lastName), u.imageUrl, PrimaryEmail(u.emailAddresses))
  }

  /**
   * What `checkUser` returns and leaves in the table. A null result never
   * comes with a write; a record it returns is the stored record of the
   * signed-in identity; existing records are never changed, and at most the
   * signed-in identity's record is added.
   */
  function CheckUserSpec(users: map<string, User>, identity: Identity, fault: StoreFault): (r: Outcome)
    requires KeyedByClerkId(users)
    ensures KeyedByClerkId(r.users)
    ensures r.result.None? ==> r.users == users
    ensures r.result.Some? ==>
              && identity.SignedIn?
              && r.result.value.clerkUserId == identity.user.id
              && identity.user.id in r.users
              && r.users[identity.user.id] == r.result.value
    ensures forall key :: key in users ==> key in r.users && r.users[key] == users[key]
    ensures forall key :: key in r.users && key !in users ==> identity.SignedIn? && key == identity.user.id
  {
    match identity
    case IdentityFails => Outcome(None, users)
    case SignedOut => Outcome(None, users)
    case SignedIn(u) =>
      if fault == LookupFails then Outcome(None, users)
      else if u.id in users then Outcome(Some(users[u.id]), users)
      else if fault == CreateFails then Outcome(None, users)
      else Outcome(Some(NewUser(u)), users[u.id := NewUser(u)])
  }

  class UserTable {
    var users: map<string, User>

    ghost predicate Valid()
      reads this
    {
      KeyedByClerkId(users)
    }

    constructor (users: map<string, User>)
      requires KeyedByClerkId(users)
      ensures Valid() && this.users == users
    {
      this.users := users;
    }

    /** `db.user.findUnique({ where: { clerkUserId } })`. */
    function FindUnique(clerkUserId: string): (r: Option<User>)
      reads this
      requires Valid()
      ensures r.Some? <==> clerkUserId in users
      ensures r.Some? ==> r.value == users[clerkUserId] && r.value.clerkUserId == clerkUserId
    {
      if clerkUserId in users then Some(users[clerkUserId]) else None
    }

    /** `db.user.create({ data })`: insert a record under its `clerkUserId`, which must be new (the column is unique). */
    method Create(data: User) returns (created: User)
      requires Valid()
      requires data.clerkUserId !in users
      modifies this
      ensures Valid()
      ensures created == data
      ensures users == old(users)[data.clerkUserId := data]
    {
      users := users[data.clerkUserId := data];
      created := data;
    }

    /** `checkUser`: look the identity up and create its record on a miss. */
    method CheckUser(identity: Identity, fault: StoreFault) returns (loggedInUser: Option<User>)
      requires Valid()
      modifies this
      ensures Valid()
      ensures Outcome(loggedInUser, users) == CheckUserSpec(old(users), identity, fault)
    {
      if identity.IdentityFails? {
        return None;
      }
      if identity.SignedOut? {
        return None;
      }
      var user := identity.user;
      if fault == LookupFails {
        return None;
      }
      loggedInUser := FindUnique(user.id);
      if loggedInUser.Some? {
        return;
      }
      var name := DisplayName(user.firstName, user.lastName);
      if fault == CreateFails {
        return None;
      }
      var created := Create(User(user.id, name, user.imageUrl, PrimaryEmail(user.emailAddresses)));
      loggedInUser := Some(created);
    }
  }

  // ------------------------------------------------------------- properties

  /**
   * The result is null exactly when nobody is signed in or a call throws
   * (`currentUser`, the lookup, or the create of a new record); a null
   * result leaves the table unchanged.
   */
  lemma NullResultIffSignedOutOrError(users: map<string, User>, identity: Identity, fault: StoreFault)
    requires KeyedByClerkId(users)
    ensures CheckUserSpec(users, identity, fault).result.None?
        <==> (|| !identity.SignedIn?
              || fault == LookupFails
              || (fault == CreateFails && identity.user.id !in users))
    ensures CheckUserSpec(users, identity, fault).result.None? ==> CheckUserSpec(users, identity, fault).users == users
  {
  }

  /** A known identity gets its stored record back and the table is unchanged. */
  lemma ExistingUserReturned(users: map<string, User>, u: ClerkUser, fault: StoreFault)
    requires KeyedByClerkId(users)
    requires u.id in users && fault != LookupFails
    ensures CheckUserSpec(users, SignedIn(u), fault) == Outcome(Some(users[u.id]), users)
  {
  }

  /** A new identity gets exactly one new record, built from its profile. */
  lemma NewUserInserted(users: map<string, User>, u: ClerkUser)
    requires KeyedByClerkId(users)
    requires u.id !in users
    ensures CheckUserSpec(users, SignedIn(u), NoFault).users == users[u.id := NewUser(u)]
    ensures |CheckUserSpec(users, SignedIn(u), NoFault).users| == |users| + 1
    ensures CheckUserSpec(users, SignedIn(u), NoFault).result == Some(NewUser(u))
  {
  }

  /**
   * Calling `checkUser` again for the same identity returns the same record
   * and changes nothing, so one identity never has two records.
   */
  lemma CheckUserIdempotent(users: map<string, User>, u: ClerkUser, fault: StoreFault)
    requires KeyedByClerkId(users)
    requires fault != LookupFails
    ensures var first := CheckUserSpec(users, SignedIn(u), NoFault);
            CheckUserSpec(first.users, SignedIn(u), fault) == first
  {
  }

  /** Both name parts missing: the stored name is empty. */
  lemma NameOfNobody()
    ensures DisplayName(None, None) == ""
  {
    TrimUnique(" ", "", "");
    assert " " + "" + "" == "" + " " + "";
  }

  /** Both parts present and already trimmed: first name, one space, last name. */
  lemma NameOfBothParts(first: string, last: string)
    requires first != [] && last != [] && IsTrimmed(first) && IsTrimmed(last)
    ensures DisplayName(Some(first), Some(last)) == first + " " + last
  {
    var full := first + " " + last;
    assert full[0] == first[0] && full[|full| - 1] == last[|last| - 1];
    TrimUnique("", full, "");
    assert "" + full + "" == full;
  }

  /** One part missing: the other part, trimmed, and no stray space. */
  lemma NameOfOnePart(part: string)
    ensures DisplayName(Some(part), None) == Trim(part)
    ensures DisplayName(None, Some(part)) == Trim(part)
  {
    TrimIgnoresPadding("", part, " ");
    assert part + " " + "" == "" + part + " ";
    TrimIgnoresPadding(" ", part, "");
    assert "" + " " + part == " " + part + "";
  }
}
