/**
 * `NotificationService.sendNotification` (src/services/notification.js): for
 * an existing user it pushes the notification over the user's live
 * connection, then e-mails it unless `emailNotification` is exactly `false`,
 * then texts it when `urgent` is truthy. The sends run one after another and
 * the first one that throws ends the call, whose catch rethrows the error.
 * Whether the e-mail and SMS gateways throw is an input here; the realtime
 * push does not throw.
 */
module Notifications {
  import opened Common
  import opened Json

  datatype Channel = Realtime | Email | Sms

  /** The notification object the callers build. */
  datatype Payload = Payload(
    message: string,
    subject: Option<Value>,
    emailNotification: Option<Value>,
    urgent: Option<Value>)

  /** The two user fields the service reads. */
  datatype Contact = Contact(email: string, phoneNumber: string)

  /** One send the service attempted, with what it was given. */
  datatype Attempt =
    | Push(userId: Id, data: Payload)
    | Mail(to: string, subject: Value, text: string)
    | TextMessage(phone: string, text: string)

  /** How the call ends: `return true`, or the rethrown error. */
  datatype Delivery = Delivered | Threw(error: string)

  /** `notification.emailNotification !== false`: only an explicit `false` turns e-mail off. */
  predicate EmailWanted(n: Payload) {
    n.emailNotification != Some(Bool(false))
  }

  /** `if (notification.urgent)`. */
  predicate Urgent(n: Payload) {
    n.urgent.Some? && Truthy(n.urgent.value)
  }

  /** `notification.subject || 'New Notification'`. */
  function Subject(n: Payload): (s: Value)
    ensures n.subject.Some? && Truthy(n.subject.value) ==> s == n.subject.value
    ensures !(n.subject.Some? && Truthy(n.subject.value)) ==> s == Str("New Notification")
  {
    if n.subject.Some? && Truthy(n.subject.value) then n.subject.value else Str("New Notification")
  }

  /** The channels an existing user's notification goes to, in the order they run. */
  function Channels(n: Payload): (r: seq<Channel>)
    ensures 1 <= |r| <= 3 && r[0] == Realtime
    ensures Email in r <==> EmailWanted(n)
    ensures Sms in r <==> Urgent(n)
    ensures NoDuplicates(r)
    ensures forall i, j :: 0 <= i < |r| && 0 <= j < |r| && r[i] == Email && r[j] == Sms ==> i < j
  {
    [Realtime] + (if EmailWanted(n) then [Email] else []) + (if Urgent(n) then [Sms] else [])
  }

  function ChannelOf(a: Attempt): Channel {
    match a
    case Push(_, _) => Realtime
    case Mail(_, _, _) => Email
    case TextMessage(_, _) => Sms
  }

  /** What the service hands to the send for a channel. */
  function AttemptFor(c: Channel, userId: Id, user: Contact, n: Payload): (a: Attempt)
    ensures ChannelOf(a) == c
  {
    match c
    case Realtime => Push(userId, n)
    case Email => Mail(user.email, Subject(n), n.message)
    case Sms => TextMessage(user.phoneNumber, n.message)
  }

  /** Whether a send throws: e-mail and SMS as the gateways' inputs say, the push never. */
  function Failure(c: Channel, emailError: Option<string>, smsError: Option<string>): Option<string> {
    match c
    case Realtime => None
    case Email => emailError
    case Sms => smsError
  }

  datatype Report = Report(attempts: seq<Attempt>, result: Delivery)

  /** Running `channels` in order until one of them throws. */
  function Run(channels: seq<Channel>, userId: Id, user: Contact, n: Payload,
               emailError: Option<string>, smsError: Option<string>): (r: Report)
    ensures |r.attempts| <= |channels|
  {
    if |channels| == 0 then Report([], Delivered)
    else
      var a := AttemptFor(channels[0], userId, user, n);
      match Failure(channels[0], emailError, smsError)
      case Some(e) => Report([a], Threw(e))
      case None =>
        var rest := Run(channels[1..], userId, user, n, emailError, smsError);
        Report([a] + rest.attempts, rest.result)
  }

  /**
   * What a run means: the attempts follow the channels in order, every
   * attempt before the last succeeded, a thrown error is the last attempt's,
   * and the run is delivered exactly when every channel was attempted and
   * none threw.
   */
  lemma {:induction false} RunMeaning(channels: seq<Channel>, userId: Id, user: Contact, n: Payload,
                                      emailError: Option<string>, smsError: Option<string>)
    ensures var r := Run(channels, userId, user, n, emailError, smsError);
      && (forall i :: 0 <= i < |r.attempts| ==> r.attempts[i] == AttemptFor(channels[i], userId, user, n))
      && (forall i :: 0 <= i < |r.attempts| - 1 ==> Failure(channels[i], emailError, smsError).None?)
      && (r.result.Delivered? <==>
            |r.attempts| == |channels| && forall i :: 0 <= i < |channels| ==> Failure(channels[i], emailError, smsError).None?)
      && (r.result.Threw? ==>
            |r.attempts| > 0 && Failure(channels[|r.attempts| - 1], emailError, smsError) == Some(r.result.error))
  {
    if |channels| > 0 && Failure(channels[0], emailError, smsError).None? {
      var rest := Run(channels[1..], userId, user, n, emailError, smsError);
      RunMeaning(channels[1..], userId, user, n, emailError, smsError);
      var r := Run(channels, userId, user, n, emailError, smsError);
      assert r.attempts == [AttemptFor(channels[0], userId, user, n)] + rest.attempts;
      assert forall i :: 1 <= i < |r.attempts| ==> r.attempts[i] == rest.attempts[i - 1];
      assert forall i :: 1 <= i < |channels| ==> channels[i] == channels[1..][i - 1];
    }
  }

  /** `sendNotification` as a report of attempted sends and how the call ended. */
  function Plan(users: map<Id, Contact>, userId: Id, n: Payload,
                emailError: Option<string>, smsError: Option<string>): (r: Report)
    ensures userId !in users ==> r == Report([], Threw("User not found"))
    ensures userId in users ==> |r.attempts| >= 1 && r.attempts[0] == Push(userId, n)
  {
    if userId !in users then Report([], Threw("User not found"))
    else Run(Channels(n), userId, users[userId], n, emailError, smsError)
  }

  /** The call returns `true` exactly when the user exists and no attempted send threw. */
  lemma DeliveredIffAllSucceeded(users: map<Id, Contact>, userId: Id, n: Payload,
                                 emailError: Option<string>, smsError: Option<string>)
    ensures var r := Plan(users, userId, n, emailError, smsError);
      r.result.Delivered? <==>
        userId in users && (EmailWanted(n) ==> emailError.None?) && (Urgent(n) ==> smsError.None?)
  {
    if userId in users {
      PlanSpelledOut(users, userId, n, emailError, smsError);
    }
  }

  /** A failed e-mail is rethrown before the SMS is attempted. */
  lemma EmailFailureStopsSms(users: map<Id, Contact>, userId: Id, n: Payload, emailError: string, smsError: Option<string>)
    requires userId in users && EmailWanted(n)
    ensures var r := Plan(users, userId, n, Some(emailError), smsError);
      && r.result == Threw(emailError)
      && |r.attempts| == 2
      && r.attempts[1] == Mail(users[userId].email, Subject(n), n.message)
      && forall a :: a in r.attempts ==> !a.TextMessage?
  {
    PlanSpelledOut(users, userId, n, Some(emailError), smsError);
  }

  /** The channels after the push, and after the e-mail. */
  function SmsChannels(n: Payload): seq<Channel> {
    if Urgent(n) then [Sms] else []
  }

  function MailChannels(n: Payload): seq<Channel> {
    (if EmailWanted(n) then [Email] else []) + SmsChannels(n)
  }

  /** What the SMS part contributes: the text when urgent, and its failure. */
  lemma RunSms(userId: Id, user: Contact, n: Payload, emailError: Option<string>, smsError: Option<string>)
    ensures Run(SmsChannels(n), userId, user, n, emailError, smsError) ==
      Report(if Urgent(n) then [TextMessage(user.phoneNumber, n.message)] else [],
             if Urgent(n) && smsError.Some? then Threw(smsError.value) else Delivered)
  {
    RunStep(SmsChannels(n), userId, user, n, emailError, smsError);
    if Urgent(n) {
      assert SmsChannels(n)[1..] == [];
      RunStep([], userId, user, n, emailError, smsError);
    }
  }

  /** The e-mail, when wanted, runs before the SMS part, and its failure ends the run. */
  lemma RunMail(userId: Id, user: Contact, n: Payload, emailError: Option<string>, smsError: Option<string>)
    ensures var sms := Run(SmsChannels(n), userId, user, n, emailError, smsError);
      Run(MailChannels(n), userId, user, n, emailError, smsError) ==
        if !EmailWanted(n) then sms
        else if emailError.Some? then Report([Mail(user.email, Subject(n), n.message)], Threw(emailError.value))
        else Report([Mail(user.email, Subject(n), n.message)] + sms.attempts, sms.result)
  {
    RunStep(MailChannels(n), userId, user, n, emailError, smsError);
    if EmailWanted(n) {
      assert MailChannels(n)[1..] == SmsChannels(n);
    } else {
      assert MailChannels(n) == SmsChannels(n);
    }
  }

  /**
   * The sends of an existing user's notification, written out: the push,
   * the e-mail when wanted, and the SMS when urgent and the e-mail did not throw.
   */
  lemma PlanSpelledOut(users: map<Id, Contact>, userId: Id, n: Payload,
                       emailError: Option<string>, smsError: Option<string>)
    requires userId in users
    ensures var user := users[userId];
      var mailFails := EmailWanted(n) && emailError.Some?;
      var r := Plan(users, userId, n, emailError, smsError);
      && r.attempts ==
        [Push(userId, n)]
        + (if EmailWanted(n) then [Mail(user.email, Subject(n), n.message)] else [])
        + (if Urgent(n) && !mailFails then [TextMessage(user.phoneNumber, n.message)] else [])
      && r.result ==
        if mailFails then Threw(emailError.value)
        else if Urgent(n) && smsError.Some? then Threw(smsError.value)
        else Delivered
  {
    var user := users[userId];
    RunSms(userId, user, n, emailError, smsError);
    RunMail(userId, user, n, emailError, smsError);
    assert Channels(n) == [Realtime] + MailChannels(n);
    RunStep(Channels(n), userId, user, n, emailError, smsError);
    assert Channels(n)[1..] == MailChannels(n);
    var push := Push(userId, n);
    var mail := Mail(user.email, Subject(n), n.message);
    var sms := Run(SmsChannels(n), userId, user, n, emailError, smsError);
    var r := Plan(users, userId, n, emailError, smsError);
    if !EmailWanted(n) {
      assert r.attempts == [push] + sms.attempts;
    } else if emailError.Some? {
      assert r.attempts == [push] + [mail];
    } else {
      assert r.attempts == [push] + ([mail] + sms.attempts);
      assert [push] + ([mail] + sms.attempts) == [push] + [mail] + sms.attempts;
    }
  }

  /** One step of `Run`: the head channel is attempted; the rest run only when it did not throw. */
  lemma RunStep(channels: seq<Channel>, userId: Id, user: Contact, n: Payload,
                emailError: Option<string>, smsError: Option<string>)
    ensures |channels| == 0 ==> Run(channels, userId, user, n, emailError, smsError) == Report([], Delivered)
    ensures |channels| > 0 && Failure(channels[0], emailError, smsError).Some? ==>
      Run(channels, userId, user, n, emailError, smsError) ==
        Report([AttemptFor(channels[0], userId, user, n)], Threw(Failure(channels[0], emailError, smsError).value))
    ensures |channels| > 0 && Failure(channels[0], emailError, smsError).None? ==>
      var rest := Run(channels[1..], userId, user, n, emailError, smsError);
      Run(channels, userId, user, n, emailError, smsError) ==
        Report([AttemptFor(channels[0], userId, user, n)] + rest.attempts, rest.result)
  {
  }

  /** The service, reduced to the sends it has attempted so far. */
  class NotificationService {
    var attempted: seq<Attempt>

    constructor()
      ensures attempted == []
    {
      attempted := [];
    }

    /** `sendNotification`: the sequential script of sends. */
    method SendNotification(users: map<Id, Contact>, userId: Id, n: Payload,
                            emailError: Option<string>, smsError: Option<string>) returns (result: Delivery)
      modifies this
      ensures var plan := Plan(users, userId, n, emailError, smsError);
        attempted == old(attempted) + plan.attempts && result == plan.result
    {
      if userId !in users {
        return Threw("User not found");
      }
      PlanSpelledOut(users, userId, n, emailError, smsError);
      var user := users[userId];
      attempted := attempted + [Push(userId, n)];
      if EmailWanted(n) {
        attempted := attempted + [Mail(user.email, Subject(n), n.message)];
        if emailError.Some? {
          return Threw(emailError.value);
        }
      }
      if Urgent(n) {
        attempted := attempted + [TextMessage(user.phoneNumber, n.message)];
        if smsError.Some? {
          return Threw(smsError.value);
        }
      }
      result := Delivered;
    }
  }
}
