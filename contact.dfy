/**
  The contact form and its email verification (`contact` and `verify_email` in app.py).
  A submission waits in the session until the link mailed to the submitter is opened;
  then the site owner is mailed the message and the session entry is removed.
 */
module Contact {
  import opened Options

  /** The `contact_data` entry of the session. */
  datatype Submission = Submission(name: string, email: string, message: string)

  /** What a mail carries: the signed verification link, or the relayed message. */
  datatype MailBody =
    | VerificationLink(token: string)
    | ContactNotice(name: string, email: string, message: string)

  /** One sent message: recipient, sender, subject and body. */
  datatype Mail = Mail(recipient: string, sender: string, subject: string, body: MailBody)

  /** The flashed notice each request ends with. */
  datatype Notice =
    | AllFieldsRequired  // danger
    | VerificationSent   // info
    | LinkInvalid        // danger
    | SessionExpired     // warning
    | Verified           // success

  const NoReplySender := "noreply@jacobjones.com.au"
  const PortfolioSender := "portfolio@jacobjones.com.au"
  const AdminAddress := "admin@jacobjones.com.au"
  const VerifySubject := "Please verify your email"
  const NoticeSubject := "New Message from portfolio contact"

  /** `request.form.get(field)` is truthy: present and non-empty. */
  predicate Filled(field: Option<string>)
  {
    field.Some? && field.value != ""
  }

  predicate Complete(s: Submission)
  {
    s.name != "" && s.email != "" && s.message != ""
  }

  /** The two message shapes, each from its own sender. */
  predicate WellAddressed(m: Mail)
  {
    match m.body
    case VerificationLink(_) => m.sender == NoReplySender && m.subject == VerifySubject && m.recipient != ""
    case ContactNotice(_, _, _) =>
      m.sender == PortfolioSender && m.subject == NoticeSubject && m.recipient == AdminAddress
  }

  function CountLinks(outbox: seq<Mail>): nat
  {
    if outbox == [] then 0
    else CountLinks(outbox[..|outbox| - 1]) + (if outbox[|outbox| - 1].body.VerificationLink? then 1 else 0)
  }

  function CountNotices(outbox: seq<Mail>): nat
  {
    if outbox == [] then 0
    else CountNotices(outbox[..|outbox| - 1]) + (if outbox[|outbox| - 1].body.ContactNotice? then 1 else 0)
  }

  /** Appending one mail raises exactly the count of its kind by one. */
  lemma CountAppend(outbox: seq<Mail>, m: Mail)
    ensures CountLinks(outbox + [m]) == CountLinks(outbox) + (if m.body.VerificationLink? then 1 else 0)
    ensures CountNotices(outbox + [m]) == CountNotices(outbox) + (if m.body.ContactNotice? then 1 else 0)
  {
    assert (outbox + [m])[..|outbox|] == outbox;
  }

  /** The session state of one client and the mails sent on its behalf. */
  class ContactSession {
    var pending: Option<Submission>
    var outbox: seq<Mail>

    /**
      A waiting submission is complete, every mail is well addressed, and each relayed message,
      like the waiting submission, consumed one pending submission that mailed one link.
     */
    ghost predicate Valid()
      reads this
      ensures Valid() ==> CountNotices(outbox) <= CountLinks(outbox)
    {
      && (pending.Some? ==> Complete(pending.value))
      && (forall i :: 0 <= i < |outbox| ==> WellAddressed(outbox[i]))
      && CountNotices(outbox) + (if pending.Some? then 1 else 0) <= CountLinks(outbox)
    }

    constructor ()
      ensures Valid()
      ensures pending == None && outbox == []
    {
      pending := None;
      outbox := [];
    }

    /**
      POST /contact. `token` is what the serializer signs for the submitted email; the source
      obtains it from a signing library, so it is a parameter here.
     */
    method Submit(name: Option<string>, email: Option<string>, message: Option<string>, token: string)
      returns (notice: Notice)
      requires Valid()
      modifies this
      ensures Valid()
      ensures !(Filled(name) && Filled(email) && Filled(message)) ==>
                notice == AllFieldsRequired && pending == old(pending) && outbox == old(outbox)
      ensures Filled(name) && Filled(email) && Filled(message) ==>
                && notice == VerificationSent
                && pending == Some(Submission(name.value, email.value, message.value))
                && outbox == old(outbox) + [Mail(email.value, NoReplySender, VerifySubject, VerificationLink(token))]
    {
      if !Filled(name) || !Filled(email) || !Filled(message) {
        return AllFieldsRequired;
      }
      pending := Some(Submission(name.value, email.value, message.value));
      var mail := Mail(email.value, NoReplySender, VerifySubject, VerificationLink(token));
      CountAppend(outbox, mail);
      outbox := outbox + [mail];
      notice := VerificationSent;
    }

    /**
      GET /verify/<token>. `confirmed` is the serializer's answer for the token: the signed
      email, or None when the signature, the salt or the age check fails.
     */
    method Verify(confirmed: Option<string>) returns (notice: Notice)
      requires Valid()
      modifies this
      ensures Valid()
      ensures !Filled(confirmed) ==> notice == LinkInvalid && pending == old(pending) && outbox == old(outbox)
      ensures Filled(confirmed) && old(pending).None? ==>
                notice == SessionExpired && pending == None && outbox == old(outbox)
      ensures Filled(confirmed) && old(pending).Some? ==>
                && notice == Verified
                && pending == None
                && outbox == old(outbox) + [Mail(AdminAddress, PortfolioSender, NoticeSubject,
                                                 ContactNotice(old(pending).value.name, confirmed.value,
                                                               old(pending).value.message))]
    {
      if !Filled(confirmed) {
        return LinkInvalid;
      }
      if pending.None? {
        return SessionExpired;
      }
      var data := pending.value;
      var mail := Mail(AdminAddress, PortfolioSender, NoticeSubject,
                       ContactNotice(data.name, confirmed.value, data.message));
      CountAppend(outbox, mail);
      outbox := outbox + [mail];
      pending := None;
      notice := Verified;
    }
  }

  /** Opening the same valid link twice relays the message once; the second visit finds no session. */
  method ReplayScenario(name: string, email: string, message: string, token: string)
    returns (first: Notice, second: Notice, notices: nat)
    requires name != "" && email != "" && message != ""
    ensures first == Verified && second == SessionExpired && notices == 1
  {
    var c := new ContactSession();
    var sent := c.Submit(Some(name), Some(email), Some(message), token);
    first := c.Verify(Some(email));
    second := c.Verify(Some(email));
    assert c.outbox == [Mail(email, NoReplySender, VerifySubject, VerificationLink(token)),
                        Mail(AdminAddress, PortfolioSender, NoticeSubject, ContactNotice(name, email, message))];
    assert c.outbox[..1][..0] == [];
    notices := CountNotices(c.outbox);
  }

  /**
    The relayed message names the email the token was signed for, not the one that was submitted:
    the two are never compared.
   */
  method MismatchScenario(name: string, submitted: string, signed: string, message: string, token: string)
    returns (relayed: Mail)
    requires name != "" && submitted != "" && signed != "" && message != ""
    ensures relayed == Mail(AdminAddress, PortfolioSender, NoticeSubject, ContactNotice(name, signed, message))
  {
    var c := new ContactSession();
    var sent := c.Submit(Some(name), Some(submitted), Some(message), token);
    var verified := c.Verify(Some(signed));
    relayed := c.outbox[|c.outbox| - 1];
  }

  /**
    An earlier link still works after a later submission: the session, not the link, decides
    which submission is relayed.
   */
  method ReuseScenario(a: string, b: string, t1: string, t2: string) returns (relayed: Mail)
    requires a != "" && b != ""
    ensures relayed == Mail(AdminAddress, PortfolioSender, NoticeSubject, ContactNotice("B", a, "second"))
  {
    var c := new ContactSession();
    var n1 := c.Submit(Some("A"), Some(a), Some("first"), t1);
    var v1 := c.Verify(Some(a));
    var n2 := c.Submit(Some("B"), Some(b), Some("second"), t2);
    var v2 := c.Verify(Some(a));
    relayed := c.outbox[|c.outbox| - 1];
  }
}
