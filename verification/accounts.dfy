/**
 * The `linkedAccounts` list that both `import_user` handlers build before
 * calling Privy's `importUser`: an entry for each truthy field, in the order
 * email, phone, custom auth.
 */
module Accounts {
  import opened Wrappers
  import opened Json

  /** One element of `linkedAccounts`; the payload is the field's value as given. */
  datatype LinkedAccount =
    | EmailAccount(address: Json)        // { type: 'email', address }
    | PhoneAccount(number: Json)         // { type: 'phone', number }
    | CustomAuthAccount(customUserId: Json) // { type: 'custom_auth', customUserId }

  /** The position of an account's kind in the fixed order email, phone, custom auth. */
  function Rank(a: LinkedAccount): nat {
    match a
    case EmailAccount(_) => 0
    case PhoneAccount(_) => 1
    case CustomAuthAccount(_) => 2
  }

  /** The entry a field contributes: one account when the field is truthy, none otherwise. */
  function Entry(field: Option<Json>, make: Json -> LinkedAccount): seq<LinkedAccount> {
    if Truthy(field) then [make(field.value)] else []
  }

  /** The list the handlers pass as `linkedAccounts`. */
  function LinkedAccounts(email: Option<Json>, phoneNumber: Option<Json>, externalId: Option<Json>): seq<LinkedAccount> {
    Entry(email, x => EmailAccount(x))
      + Entry(phoneNumber, x => PhoneAccount(x))
      + Entry(externalId, x => CustomAuthAccount(x))
  }

  /**
   * The conditional pushes onto an initially empty array, as both handlers
   * write them.
   */
  method Build(email: Option<Json>, phoneNumber: Option<Json>, externalId: Option<Json>)
    returns (linkedAccounts: seq<LinkedAccount>)
    ensures linkedAccounts == LinkedAccounts(email, phoneNumber, externalId)
    ensures |linkedAccounts| <= 3
  {
    linkedAccounts := [];
    if Truthy(email) {
      linkedAccounts := linkedAccounts + [EmailAccount(email.value)];
    }
    if Truthy(phoneNumber) {
      linkedAccounts := linkedAccounts + [PhoneAccount(phoneNumber.value)];
    }
    if Truthy(externalId) {
      linkedAccounts := linkedAccounts + [CustomAuthAccount(externalId.value)];
    }
  }

  /** Entries appear in strictly increasing kind order, so each kind at most once. */
  predicate Ordered(s: seq<LinkedAccount>) {
    forall i, j :: 0 <= i < j < |s| ==> Rank(s[i]) < Rank(s[j])
  }

  /**
   * A declarative description of the list: ordered by kind, and an account is
   * in it exactly when its field is truthy and the account carries that
   * field's value.
   */
  predicate Describes(s: seq<LinkedAccount>, email: Option<Json>, phoneNumber: Option<Json>, externalId: Option<Json>) {
    && Ordered(s)
    && (forall a :: a in s && a.EmailAccount? ==> Truthy(email) && a.address == email.value)
    && (forall a :: a in s && a.PhoneAccount? ==> Truthy(phoneNumber) && a.number == phoneNumber.value)
    && (forall a :: a in s && a.CustomAuthAccount? ==> Truthy(externalId) && a.customUserId == externalId.value)
    && (Truthy(email) ==> EmailAccount(email.value) in s)
    && (Truthy(phoneNumber) ==> PhoneAccount(phoneNumber.value) in s)
    && (Truthy(externalId) ==> CustomAuthAccount(externalId.value) in s)
  }

  /** The built list has at most three entries, and none exactly when no field is truthy. */
  lemma LinkedAccountsSize(email: Option<Json>, phoneNumber: Option<Json>, externalId: Option<Json>)
    ensures |LinkedAccounts(email, phoneNumber, externalId)| <= 3
    ensures |LinkedAccounts(email, phoneNumber, externalId)|
            == (if Truthy(email) then 1 else 0) + (if Truthy(phoneNumber) then 1 else 0) + (if Truthy(externalId) then 1 else 0)
  {
  }

  /** The built list meets the description. */
  lemma LinkedAccountsDescribed(email: Option<Json>, phoneNumber: Option<Json>, externalId: Option<Json>)
    ensures Describes(LinkedAccounts(email, phoneNumber, externalId), email, phoneNumber, externalId)
  {
  }

  /** The head of an ordered list has the least kind, and is the only entry of that kind. */
  lemma HeadLeast(s: seq<LinkedAccount>, a: LinkedAccount)
    requires Ordered(s) && a in s
    ensures Rank(s[0]) <= Rank(a)
    ensures a in s[1..] <==> Rank(s[0]) < Rank(a)
  {
    var k :| 0 <= k < |s| && s[k] == a;
    if k > 0 {
      assert Rank(s[0]) < Rank(s[k]);
      assert s[1..][k - 1] == a;
    }
  }

  /** Two ordered lists with the same elements are the same list. */
  lemma {:induction false} OrderedUnique(s: seq<LinkedAccount>, t: seq<LinkedAccount>)
    requires Ordered(s) && Ordered(t)
    requires forall a :: a in s <==> a in t
    ensures s == t
  {
    assert s != [] ==> s[0] in t;
    assert t != [] ==> t[0] in s;
    if s != [] && t != [] {
      HeadLeast(s, t[0]);
      HeadLeast(t, s[0]);
      assert s[0] == t[0] by { HeadLeast(s, t[0]); }
      forall a | a in s[1..] || a in t[1..] ensures a in s[1..] <==> a in t[1..] {
        assert a in s && a in t;
        HeadLeast(s, a);
        HeadLeast(t, a);
      }
      assert Ordered(s[1..]) && Ordered(t[1..]);
      OrderedUnique(s[1..], t[1..]);
      assert s == [s[0]] + s[1..] && t == [t[0]] + t[1..];
    }
  }

  /**
   * The description determines the list: a list meets it exactly when it is
   * the built list.
   */
  lemma LinkedAccountsCharacterized(s: seq<LinkedAccount>, email: Option<Json>, phoneNumber: Option<Json>, externalId: Option<Json>)
    ensures Describes(s, email, phoneNumber, externalId) <==> s == LinkedAccounts(email, phoneNumber, externalId)
  {
    var built := LinkedAccounts(email, phoneNumber, externalId);
    LinkedAccountsDescribed(email, phoneNumber, externalId);
    if Describes(s, email, phoneNumber, externalId) {
      forall a ensures a in s <==> a in built {
        match a
        case EmailAccount(_) =>
        case PhoneAccount(_) =>
        case CustomAuthAccount(_) =>
      }
      OrderedUnique(s, built);
    }
  }

  /**
   * On the string fields the tool declares, an entry is present exactly when
   * its string is non-empty.
   */
  lemma StringFieldsIncluded(email: Option<string>, phoneNumber: Option<string>, externalId: Option<string>)
    ensures var accounts := LinkedAccounts(AsJson(email), AsJson(phoneNumber), AsJson(externalId));
      && (exists a :: a in accounts && a.EmailAccount?) == (email.Some? && email.value != "")
      && (exists a :: a in accounts && a.PhoneAccount?) == (phoneNumber.Some? && phoneNumber.value != "")
      && (exists a :: a in accounts && a.CustomAuthAccount?) == (externalId.Some? && externalId.value != "")
  {
    var accounts := LinkedAccounts(AsJson(email), AsJson(phoneNumber), AsJson(externalId));
    if email.Some? && email.value != "" { assert accounts[0].EmailAccount?; }
    if phoneNumber.Some? && phoneNumber.value != "" {
      assert PhoneAccount(JStr(phoneNumber.value)) in accounts;
    }
    if externalId.Some? && externalId.value != "" {
      assert CustomAuthAccount(JStr(externalId.value)) in accounts;
    }
  }

  /** An optional string as the JSON value a handler sees. */
  function AsJson(s: Option<string>): Option<Json> {
    match s
    case None => None
    case Some(v) => Some(JStr(v))
  }
}
