/**
 * The user-owned collections that src/controllers/user/userController.js
 * edits in place: the list of push-notification (FCM) tokens, kept free of
 * duplicates by `registerFCMToken` and filtered by `unregisterFCMToken`, and
 * the embedded notifications, one of which `markNotificationAsRead` flags.
 * The account is the caller's own user record, which the authentication
 * middleware has already loaded.
 */
module UserAccount {
  import opened Common

  /** An embedded notification: its sub-document id, its type and the read flag. */
  datatype InboxEntry = InboxEntry(id: Id, kind: string, read: bool)

  /** The token list after `registerFCMToken`: pushed only when it is not there yet. */
  function Registered(tokens: seq<string>, token: string): (r: seq<string>)
    ensures token in r
    ensures token in tokens ==> r == tokens
    ensures token !in tokens ==> r == tokens + [token]
    ensures NoDuplicates(tokens) ==> NoDuplicates(r)
  {
    if token in tokens then tokens else tokens + [token]
  }

  /** Registering the same token twice is the same as registering it once. */
  lemma RegisterIdempotent(tokens: seq<string>, token: string)
    ensures Registered(Registered(tokens, token), token) == Registered(tokens, token)
  {
  }

  /** Unregistering keeps a duplicate-free list duplicate-free. */
  lemma {:induction false} UnregisterKeepsNoDuplicates(tokens: seq<string>, token: string)
    requires NoDuplicates(tokens)
    ensures NoDuplicates(RemoveAll(tokens, token))
  {
    if |tokens| > 0 {
      assert NoDuplicates(tokens[1..]);
      UnregisterKeepsNoDuplicates(tokens[1..], token);
      if tokens[0] != token {
        assert tokens[0] !in tokens[1..];
        assert tokens[0] !in RemoveAll(tokens[1..], token);
        assert RemoveAll(tokens, token) == [tokens[0]] + RemoveAll(tokens[1..], token);
      }
    }
  }

  /**
   * Register then unregister: the token is gone, and every other token is
   * where unregistering alone would have left it.
   */
  lemma RegisterThenUnregister(tokens: seq<string>, token: string)
    ensures token !in RemoveAll(Registered(tokens, token), token)
    ensures RemoveAll(Registered(tokens, token), token) == RemoveAll(tokens, token)
  {
    if token !in tokens {
      RemoveAllAppend(tokens, [token], token);
      assert RemoveAll([token], token) == [];
      assert RemoveAll(tokens, token) + [] == RemoveAll(tokens, token);
    }
  }

  predicate HasId(id: Id, n: InboxEntry) {
    n.id == id
  }

  /** The predicate `notifications.id(id)` searches with. */
  function WithId(id: Id): InboxEntry -> bool {
    (n: InboxEntry) => HasId(id, n)
  }

  /** Position `k` holds the first notification with that id. */
  predicate IsFirst(inbox: seq<InboxEntry>, id: Id, k: int) {
    0 <= k < |inbox| && inbox[k].id == id && forall j :: 0 <= j < k ==> inbox[j].id != id
  }

  /**
   * `markNotificationAsRead`: the first notification with that id gets
   * `read = true`; an unknown id is 404 and nothing changes.
   */
  function MarkReadStep(inbox: seq<InboxEntry>, id: Id): (r: Outcome<seq<InboxEntry>>)
    ensures r.Err? <==> forall k :: 0 <= k < |inbox| ==> inbox[k].id != id
    ensures r.Err? ==> r == Err(404, "Notification not found")
    ensures r.Ok? ==> |r.value| == |inbox|
    ensures r.Ok? ==> forall k :: 0 <= k < |inbox| ==>
      r.value[k] == if IsFirst(inbox, id, k) then inbox[k].(read := true) else inbox[k]
  {
    var i := FirstIndex(inbox, WithId(id));
    if i == -1 then Err(404, "Notification not found")
    else
      assert forall k :: 0 <= k < |inbox| ==> (IsFirst(inbox, id, k) <==> k == i);
      Ok(inbox[i := inbox[i].(read := true)])
  }

  /** Marking twice is the same as marking once. */
  lemma MarkReadIdempotent(inbox: seq<InboxEntry>, id: Id)
    requires MarkReadStep(inbox, id).Ok?
    ensures MarkReadStep(MarkReadStep(inbox, id).value, id) == MarkReadStep(inbox, id)
  {
    var once := MarkReadStep(inbox, id).value;
    assert forall k :: 0 <= k < |once| ==> once[k].id == inbox[k].id;
    assert forall k :: 0 <= k < |once| ==> (IsFirst(once, id, k) <==> IsFirst(inbox, id, k));
    assert MarkReadStep(once, id).value == once;
  }

  /** The caller's user document, restricted to the two lists these handlers edit. */
  class Account {
    var fcmTokens: seq<string>
    var notifications: seq<InboxEntry>

    constructor(tokens: seq<string>, inbox: seq<InboxEntry>)
      ensures fcmTokens == tokens && notifications == inbox
    {
      fcmTokens := tokens;
      notifications := inbox;
    }

    /** `registerFCMToken`: push and save only when the token is new. */
    method RegisterToken(token: string)
      modifies this
      ensures fcmTokens == Registered(old(fcmTokens), token)
      ensures notifications == old(notifications)
      ensures NoDuplicates(old(fcmTokens)) ==> NoDuplicates(fcmTokens)
    {
      if token !in fcmTokens {
        fcmTokens := fcmTokens + [token];
      }
    }

    /** `unregisterFCMToken`: the list is replaced by the copy without the token. */
    method UnregisterToken(token: string)
      modifies this
      ensures fcmTokens == RemoveAll(old(fcmTokens), token)
      ensures token !in fcmTokens
      ensures notifications == old(notifications)
      ensures NoDuplicates(old(fcmTokens)) ==> NoDuplicates(fcmTokens)
    {
      if NoDuplicates(fcmTokens) {
        UnregisterKeepsNoDuplicates(fcmTokens, token);
      }
      fcmTokens := RemoveAll(fcmTokens, token);
    }

    /** `markNotificationAsRead`: flag the notification in place and save. */
    method MarkNotificationAsRead(id: Id) returns (resp: Outcome<InboxEntry>)
      modifies this
      ensures var step := MarkReadStep(old(notifications), id);
        && (resp.Ok? <==> step.Ok?)
        && notifications == (if step.Ok? then step.value else old(notifications))
        && (step.Err? ==> resp == Err(404, "Notification not found"))
        && (resp.Ok? ==> resp.value.id == id && resp.value.read && resp.value in notifications)
      ensures fcmTokens == old(fcmTokens)
    {
      var i := FirstIndex(notifications, WithId(id));
      if i == -1 {
        return Err(404, "Notification not found");
      }
      assert IsFirst(notifications, id, i);
      var marked := notifications[i].(read := true);
      notifications := notifications[i := marked];
      resp := Ok(marked);
    }
  }
}
