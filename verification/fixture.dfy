/** `updateEmailInTestData` (Mysight/testData/testUtils.js) as a pure update of
    the parsed fixture document. Reading, parsing, serialising and writing the
    file are not modelled: the operation takes the parsed document and returns
    the document that would be written back, with the new address. */
module Fixture {
  import UniqueEmail
  import opened Wrappers

  /** A parsed JSON value. Objects are maps from member name to value. */
  datatype Json =
    | Null
    | Bool(b: bool)
    | Num(n: real)
    | Str(s: string)
    | Arr(items: seq<Json>)
    | Obj(members: map<string, Json>)

  /** The TypeErrors `testData.user.email = …` can throw: `testData.user`
      is undefined or null, or (in strict mode) it is a string, number or
      boolean, on which no property can be created. */
  datatype FixtureError = UserUndefined | PrimitiveUser

  /** Whether the script runs as non-strict or strict JavaScript. The source
      does not say: it depends on how the test runner loads the file. */
  datatype ScriptMode = Sloppy | Strict

  datatype Updated = Updated(fixture: Json, email: string)

  /** `testData.user` is a value on which a property may be set: the
      document is an object holding a non-null `user` member. */
  predicate HasUser(doc: Json) {
    doc.Obj? && "user" in doc.members && !doc.members["user"].Null?
  }

  /** `testData.user` is itself an object, so setting `email` on it is kept
      when the document is serialised again. */
  predicate HasUserObject(doc: Json) {
    doc.Obj? && "user" in doc.members && doc.members["user"].Obj?
  }

  /** The assignment to `user.email` does not throw: `user` is defined and not
      null, and in strict mode it is an object or an array. */
  predicate Assignable(doc: Json, mode: ScriptMode) {
    HasUser(doc) && (mode == Strict ==> doc.members["user"].Obj? || doc.members["user"].Arr?)
  }

  /** The value of `user.email`, when the document has one. */
  function UserEmail(doc: Json): Option<Json> {
    if HasUserObject(doc) && "email" in doc.members["user"].members
    then Some(doc.members["user"].members["email"])
    else None
  }

  /** The assignment `testData.user.email = email`. On an object user it sets
      (or adds) the member. On an array user it sets a named property, which
      serialising the document drops. On a primitive user it is ignored in a
      non-strict script and throws in a strict one. */
  function SetUserEmail(doc: Json, email: string, mode: ScriptMode): (r: Result<Json, FixtureError>)
    ensures r.Success? <==> Assignable(doc, mode)
    ensures r.Failure? ==> (r.error == UserUndefined <==> !HasUser(doc))
    ensures r.Success? && HasUserObject(doc) ==> UserEmail(r.value) == Some(Str(email))
    ensures r.Success? && !HasUserObject(doc) ==> r.value == doc
  {
    if !HasUser(doc) then Failure(UserUndefined)
    else match doc.members["user"]
      case Obj(user) => Success(Obj(doc.members["user" := Obj(user["email" := Str(email)])]))
      case Arr(_) => Success(doc)
      case _ => if mode == Strict then Failure(PrimitiveUser) else Success(doc)
  }

  /** `updateEmailInTestData`: generate the address for `timestamp`, store it
      in `user.email` and return it with the document to be written back. */
  function UpdateEmailInTestData(doc: Json, timestamp: nat, mode: ScriptMode): (r: Result<Updated, FixtureError>)
    ensures r.Success? <==> Assignable(doc, mode)
    ensures r.Success? ==> r.value.email == UniqueEmail.GenerateRandomEmail(timestamp)
    ensures r.Success? && HasUserObject(doc) ==> UserEmail(r.value.fixture) == Some(Str(r.value.email))
    ensures r.Success? && !HasUserObject(doc) ==> r.value.fixture == doc
  {
    var email := UniqueEmail.GenerateRandomEmail(timestamp);
    match SetUserEmail(doc, email, mode)
    case Success(updated) => Success(Updated(updated, email))
    case Failure(e) => Failure(e)
  }

  /** Nothing but `user.email` changes: every other top-level member and every
      other member of `user` keeps its value, and no member disappears. */
  lemma OnlyUserEmailChanges(doc: Json, timestamp: nat, mode: ScriptMode)
    requires HasUserObject(doc)
    ensures var r := UpdateEmailInTestData(doc, timestamp, mode);
      && r.Success?
      && r.value.fixture.Obj?
      && r.value.fixture.members.Keys == doc.members.Keys
      && (forall k :: k in doc.members && k != "user" ==> r.value.fixture.members[k] == doc.members[k])
      && r.value.fixture.members["user"].Obj?
      && r.value.fixture.members["user"].members.Keys == doc.members["user"].members.Keys + {"email"}
      && (forall k :: k in doc.members["user"].members && k != "email" ==>
            r.value.fixture.members["user"].members[k] == doc.members["user"].members[k])
  {
  }

  /** The document written back depends only on the last timestamp: a second
      update overwrites the first one's address and nothing else. */
  lemma LastUpdateWins(doc: Json, t1: nat, t2: nat, mode: ScriptMode)
    requires Assignable(doc, mode)
    ensures UpdateEmailInTestData(doc, t1, mode).Success?
    ensures UpdateEmailInTestData(UpdateEmailInTestData(doc, t1, mode).value.fixture, t2, mode)
            == UpdateEmailInTestData(doc, t2, mode)
  {
    var e1 := UniqueEmail.GenerateRandomEmail(t1);
    var e2 := UniqueEmail.GenerateRandomEmail(t2);
    match doc.members["user"]
    case Obj(user) =>
      assert user["email" := Str(e1)]["email" := Str(e2)] == user["email" := Str(e2)];
      assert doc.members["user" := Obj(user["email" := Str(e1)])]["user" := Obj(user["email" := Str(e2)])]
             == doc.members["user" := Obj(user["email" := Str(e2)])];
    case _ =>
  }

  /** Updates with distinct timestamps store distinct addresses. */
  lemma DistinctRunsStoreDistinctEmails(doc: Json, t1: nat, t2: nat, mode: ScriptMode)
    requires HasUserObject(doc) && t1 != t2
    ensures UserEmail(UpdateEmailInTestData(doc, t1, mode).value.fixture)
            != UserEmail(UpdateEmailInTestData(doc, t2, mode).value.fixture)
  {
    UniqueEmail.DistinctTimestampsDistinctEmails(t1, t2);
  }
}
