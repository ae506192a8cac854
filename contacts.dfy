/**
 * The contacts screen: folding schema issues into a per-field error map,
 * loading and extending the contact list, and dropping the session token
 * when the server answers 401.
 */
module Contacts {
  import opened Outcomes
  import opened Session

  const GeneralKey := "general"
  const GeneralMessage := "Validation error"
  /** The key JavaScript uses for `acc[undefined]`. */
  const UndefinedKey := "undefined"
  const FetchFailure := "An error occurred while fetching contacts."
  const AddFailure := "An error occurred while adding the contact."
  const AuthRoute := "/auth"

  // ---------------------------------------------------------------------
  // validateZod (app/dashboard/contacts/page.js:25-39)
  // ---------------------------------------------------------------------

  /** One issue reported by the schema: where it is and what to say. */
  datatype Issue = Issue(path: seq<string>, message: string)

  /** What `validationSchema.parse(values)` did. */
  datatype ParseOutcome =
    | Parsed                          // returned normally
    | ZodFailure(issues: seq<Issue>)  // threw a ZodError carrying these issues
    | OtherFailure                    // threw anything else

  /** `curr.path[0]` used as an object key: an empty path gives `undefined`. */
  function IssueKey(issue: Issue): (key: string)
    ensures issue.path == [] ==> key == UndefinedKey
    ensures issue.path != [] ==> key == issue.path[0]
  {
    if issue.path == [] then UndefinedKey else issue.path[0]
  }

  function IssueKeys(issues: seq<Issue>): set<string> {
    set i | 0 <= i < |issues| :: IssueKey(issues[i])
  }

  /** The `reduce`: each issue overwrites its key in the accumulator, left to right. */
  function FoldIssues(acc: map<string, string>, issues: seq<Issue>): (r: map<string, string>)
    ensures r.Keys == acc.Keys + IssueKeys(issues)
    decreases |issues|
  {
    if issues == [] then acc
    else
      var r := FoldIssues(acc[IssueKey(issues[0]) := issues[0].message], issues[1..]);
      assert IssueKeys(issues) == {IssueKey(issues[0])} + IssueKeys(issues[1..]) by {
        forall k | k in IssueKeys(issues) ensures k in {IssueKey(issues[0])} + IssueKeys(issues[1..]) {
          var i :| 0 <= i < |issues| && IssueKey(issues[i]) == k;
          if i > 0 { assert issues[1..][i - 1] == issues[i]; }
        }
        forall k | k in IssueKeys(issues[1..]) ensures k in IssueKeys(issues) {
          var i :| 0 <= i < |issues[1..]| && IssueKey(issues[1..][i]) == k;
          assert issues[i + 1] == issues[1..][i];
        }
      }
      r
  }

  /**
   * Reference reading of "the last issue wins", scanning from the end: the
   * message of the last issue whose key is `key`, if any.
   */
  function LastMessage(issues: seq<Issue>, key: string): (m: Option<string>)
    ensures m.None? <==> forall i :: 0 <= i < |issues| ==> IssueKey(issues[i]) != key
    ensures m.Some? ==> exists i :: (
      && 0 <= i < |issues| && IssueKey(issues[i]) == key && issues[i].message == m.value
      && forall j :: i < j < |issues| ==> IssueKey(issues[j]) != key)
    decreases |issues|
  {
    if issues == [] then None
    else if IssueKey(issues[|issues| - 1]) == key then Some(issues[|issues| - 1].message)
    else
      var m := LastMessage(issues[..|issues| - 1], key);
      assert forall i :: 0 <= i < |issues| - 1 ==> issues[..|issues| - 1][i] == issues[i];
      m
  }

  function Lookup(m: map<string, string>, key: string): Option<string> {
    if key in m then Some(m[key]) else None
  }

  /** Dropping the first issue: its message counts only if no later issue has its key. */
  lemma {:induction false} LastMessageDropFirst(issues: seq<Issue>, key: string)
    requires issues != []
    ensures LastMessage(issues, key) ==
      if LastMessage(issues[1..], key).Some? then LastMessage(issues[1..], key)
      else if IssueKey(issues[0]) == key then Some(issues[0].message)
      else None
    decreases |issues|
  {
    var n := |issues|;
    if n > 1 {
      assert issues[1..][|issues[1..]| - 1] == issues[n - 1];
      if IssueKey(issues[n - 1]) != key {
        LastMessageDropFirst(issues[..n - 1], key);
        assert issues[..n - 1][1..] == issues[1..][..|issues[1..]| - 1];
        assert issues[..n - 1][0] == issues[0];
      }
    }
  }

  /** The fold agrees with the reference: the last issue for a key wins, other keys keep their value. */
  lemma {:induction false} FoldIssuesKeepsLast(acc: map<string, string>, issues: seq<Issue>, key: string)
    ensures Lookup(FoldIssues(acc, issues), key) ==
      if LastMessage(issues, key).Some? then LastMessage(issues, key) else Lookup(acc, key)
    decreases |issues|
  {
    if issues != [] {
      var acc' := acc[IssueKey(issues[0]) := issues[0].message];
      FoldIssuesKeepsLast(acc', issues[1..], key);
      LastMessageDropFirst(issues, key);
    }
  }

  /**
   * `validateZod`: no error when parsing succeeds; one entry per distinct
   * first path element, carrying the message of the last issue with that
   * key, for a schema error; `{general: "Validation error"}` otherwise.
   */
  function ValidateZod(outcome: ParseOutcome): (errs: map<string, string>)
    ensures outcome.Parsed? ==> errs == map[]
    ensures outcome.OtherFailure? ==> errs == map[GeneralKey := GeneralMessage]
    ensures outcome.ZodFailure? ==> errs.Keys == IssueKeys(outcome.issues)
    ensures outcome.ZodFailure? ==> forall key :: Lookup(errs, key) == LastMessage(outcome.issues, key)
  {
    match outcome
    case Parsed => map[]
    case OtherFailure => map[GeneralKey := GeneralMessage]
    case ZodFailure(issues) =>
      var errs := FoldIssues(map[], issues);
      assert forall key :: Lookup(errs, key) == LastMessage(issues, key) by {
        forall key ensures Lookup(errs, key) == LastMessage(issues, key) {
          FoldIssuesKeepsLast(map[], issues, key);
        }
      }
      errs
  }

  /** Two issues on one field: the later message is the one shown. */
  lemma DuplicateKeyExample()
    ensures ValidateZod(ZodFailure([
      Issue(["firstName"], "First name is required"),
      Issue(["lastName"], "Last name is required"),
      Issue(["firstName"], "Too short")]))
      == map["firstName" := "Too short", "lastName" := "Last name is required"]
  {
    var issues := [
      Issue(["firstName"], "First name is required"),
      Issue(["lastName"], "Last name is required"),
      Issue(["firstName"], "Too short")];
    var errs := ValidateZod(ZodFailure(issues));
    assert IssueKey(issues[0]) == "firstName" && IssueKey(issues[1]) == "lastName" && IssueKey(issues[2]) == "firstName";
    assert errs.Keys == {"firstName", "lastName"};
    assert Lookup(errs, "firstName") == Some("Too short");
    assert Lookup(errs, "lastName") == Some("Last name is required");
  }

  // ---------------------------------------------------------------------
  // The screen's state and handlers (app/dashboard/contacts/page.js:41-106)
  // ---------------------------------------------------------------------

  /** A contact as the server returns it. */
  datatype Contact = Contact(
    id: string, firstName: string, lastName: string, phoneNumber: string,
    email: string, address: string, notes: string)

  /** The form values posted to create a contact. */
  datatype ContactValues = ContactValues(
    firstName: string, lastName: string, phoneNumber: string,
    email: string, address: string, notes: string)

  /** The request `handleAddContact` posts: bearer token and body. */
  datatype AddRequest = AddRequest(token: string, values: ContactValues)

  class ContactsPage {
    var contacts: seq<Contact>
    var isModalOpen: bool
    var token: string
    var loading: bool
    var error: string
    /** The form library's `isSubmitting`, which the handler resets. */
    var submitting: bool
    /** The last `router.push` target, `None` while the screen stays put. */
    var route: Option<string>
    const store: SessionStore

    constructor (store: SessionStore)
      ensures this.store == store
      ensures contacts == [] && !isModalOpen && token == "" && !loading && error == ""
      ensures !submitting && route == None
    {
      this.store := store;
      contacts, isModalOpen, token, loading, error := [], false, "", false, "";
      submitting, route := false, None;
    }

    /**
     * What a finished fetch leaves behind, given the state before it: the
     * list replaced on success; otherwise the list kept, the server's text or
     * the fetch fallback in `error`, and on a 401 the token gone and the
     * screen sent to `/auth`.
     */
    ghost predicate FetchApplied(
      oldContacts: seq<Contact>, oldError: string, oldToken: Option<string>,
      oldRoute: Option<string>, reply: Reply<seq<Contact>>)
      reads this, store
    {
      && (reply.Ok? ==> contacts == reply.data && error == oldError)
      && (!reply.Ok? ==> contacts == oldContacts && error == OrFallback(ServerMessage(reply), FetchFailure))
      && (Unauthorized(reply) ==> store.token == None && route == Some(AuthRoute))
      && (!Unauthorized(reply) ==> store.token == oldToken && route == oldRoute)
    }

    /** `fetchContacts(authToken)`, with `reply` the outcome of the GET. */
    method FetchContacts(authToken: string, reply: Reply<seq<Contact>>) returns (sentToken: string)
      modifies this`contacts, this`error, this`route, store`token
      ensures sentToken == authToken
      ensures FetchApplied(old(contacts), old(error), old(store.token), old(route), reply)
    {
      sentToken := authToken;
      if reply.Ok? {
        contacts := reply.data;
      } else {
        error := OrFallback(ServerMessage(reply), FetchFailure);
        if Unauthorized(reply) {
          store.Clear();
          route := Some(AuthRoute);
        }
      }
    }

    /**
     * The mount effect: with a stored token, copy it into state and fetch
     * with it; without one, go to `/auth` and fetch nothing.
     */
    method Mount(reply: Reply<seq<Contact>>) returns (fetchedWith: Option<string>)
      modifies this`token, this`contacts, this`error, this`route, store`token
      ensures !old(store.HasToken()) ==>
        && fetchedWith == None && route == Some(AuthRoute)
        && token == old(token) && contacts == old(contacts) && error == old(error)
        && store.token == old(store.token)
      ensures old(store.HasToken()) ==>
        && fetchedWith == old(store.token) && token == old(store.token).value
        && FetchApplied(old(contacts), old(error), old(store.token), old(route), reply)
    {
      if store.HasToken() {
        var saved := store.token.value;
        token := saved;
        var used := FetchContacts(saved, reply);
        fetchedWith := Some(used);
      } else {
        fetchedWith := None;
        route := Some(AuthRoute);
      }
    }

    method OpenModal()
      modifies this`isModalOpen
      ensures isModalOpen
    {
      isModalOpen := true;
    }

    method CloseModal()
      modifies this`isModalOpen
      ensures !isModalOpen
    {
      isModalOpen := false;
    }

    /**
     * `handleAddContact(values)`, with `reply` the outcome of the POST. It
     * clears `error` before the request (`errorAtCall`) and sets `loading`
     * (`loadingAtCall`); both flags are down again on every path.
     */
    method HandleAddContact(values: ContactValues, reply: Reply<Contact>)
      returns (sent: AddRequest, ghost loadingAtCall: bool, ghost errorAtCall: string)
      modifies this`loading, this`error, this`contacts, this`isModalOpen, this`submitting, this`route, store`token
      ensures sent == AddRequest(token, values)
      ensures loadingAtCall && errorAtCall == ""
      ensures !loading && !submitting
      ensures reply.Ok? ==>
        && contacts == old(contacts) + [reply.data] && !isModalOpen && error == ""
      ensures !reply.Ok? ==>
        && contacts == old(contacts) && isModalOpen == old(isModalOpen)
        && error == OrFallback(ServerMessage(reply), AddFailure)
      ensures Unauthorized(reply) ==> store.token == None && route == Some(AuthRoute)
      ensures !Unauthorized(reply) ==> store.token == old(store.token) && route == old(route)
    {
      loading := true;
      error := "";
      sent := AddRequest(token, values);
      loadingAtCall, errorAtCall := loading, error;
      if reply.Ok? {
        contacts := contacts + [reply.data];
        CloseModal();
      } else {
        error := OrFallback(ServerMessage(reply), AddFailure);
        if Unauthorized(reply) {
          store.Clear();
          route := Some(AuthRoute);
        }
      }
      loading := false;
      submitting := false;
    }
  }

  /** Opening the screen without a token never fetches; a 401 on add logs the user out. */
  method SessionScenario(created: Contact, values: ContactValues)
  {
    var empty := new SessionStore(None);
    var guest := new ContactsPage(empty);
    var fetched := guest.Mount(Ok([created]));
    assert fetched == None && guest.route == Some(AuthRoute) && guest.contacts == [];

    var store := new SessionStore(Some("T"));
    var page := new ContactsPage(store);
    fetched := page.Mount(Ok([]));
    assert fetched == Some("T") && page.contacts == [];
    var _, _, _ := page.HandleAddContact(values, Ok(created));
    assert page.contacts == [created] && store.token == Some("T");
    var _, _, _ := page.HandleAddContact(values, Rejected(401, None));
    assert page.contacts == [created] && page.error == AddFailure;
    assert store.token == None && page.route == Some(AuthRoute);
  }
}
