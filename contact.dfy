/** The contact section: a five-field message form that acknowledges a
    submission with a notification and clears itself, and a newsletter
    form that only acknowledges. Nothing is sent anywhere. */
module Contact {

  /** The `name` attributes of the form's five inputs. */
  datatype Field = Name | Email | Phone | Subject | Message

  datatype FormData = FormData(
    name: string,
    email: string,
    phone: string,
    subject: string,
    message: string)

  /** A notification shown to the visitor. */
  datatype Toast = Toast(title: string, description: string)

  const MessageSent: Toast :=
    Toast("Message Sent!", "Thank you for contacting us. We'll get back to you soon.")

  const Subscribed: Toast :=
    Toast("Subscribed!", "You've successfully subscribed to our newsletter.")

  /** The value of one field. */
  function Get(form: FormData, field: Field): string
  {
    match field
    case Name => form.name
    case Email => form.email
    case Phone => form.phone
    case Subject => form.subject
    case Message => form.message
  }

  /** Two forms are equal exactly when they agree on every field. */
  lemma FieldwiseEquality(f: FormData, g: FormData)
    requires forall field :: Get(f, field) == Get(g, field)
    ensures f == g
  {
    assert Get(f, Name) == Get(g, Name) && Get(f, Email) == Get(g, Email);
    assert Get(f, Phone) == Get(g, Phone) && Get(f, Subject) == Get(g, Subject);
    assert Get(f, Message) == Get(g, Message);
  }

  /** The form as first drawn and after every submission. */
  function EmptyForm(): (form: FormData)
    ensures forall field :: Get(form, field) == ""
  {
    FormData("", "", "", "", "")
  }

  /** `{ ...prev, [name]: value }`: the named field takes the value and
      every other field keeps its own. */
  function WithField(form: FormData, field: Field, value: string): (updated: FormData)
    ensures Get(updated, field) == value
    ensures forall other :: other != field ==> Get(updated, other) == Get(form, other)
  {
    match field
    case Name => form.(name := value)
    case Email => form.(email := value)
    case Phone => form.(phone := value)
    case Subject => form.(subject := value)
    case Message => form.(message := value)
  }

  /** Typing into a field twice keeps only the second value. */
  lemma OverwriteField(form: FormData, field: Field, v: string, w: string)
    ensures WithField(WithField(form, field, v), field, w) == WithField(form, field, w)
  {
  }

  /** Edits of two different fields do not interfere: their order does not
      matter. */
  lemma EditsCommute(form: FormData, a: Field, v: string, b: Field, w: string)
    requires a != b
    ensures WithField(WithField(form, a, v), b, w) == WithField(WithField(form, b, w), a, v)
  {
  }

  /** Writing a value into a field leaves the form as it was exactly when
      the field already held that value; in particular writing back a
      field's own value changes nothing. */
  lemma RewriteSameValue(form: FormData, field: Field, value: string)
    ensures WithField(form, field, Get(form, field)) == form
    ensures WithField(form, field, value) == form <==> Get(form, field) == value
  {
    if Get(form, field) == value {
      FieldwiseEquality(WithField(form, field, value), form);
    }
  }

  class ContactForm {
    var formData: FormData
    /** The notifications shown so far, oldest first. */
    ghost var toasts: seq<Toast>

    /** All five fields start empty and nothing has been shown. */
    constructor ()
      ensures formData == EmptyForm() && toasts == []
    {
      formData := EmptyForm();
      toasts := [];
    }

    /** A keystroke in the input named `field`. */
    method HandleInputChange(field: Field, value: string)
      modifies this
      ensures formData == WithField(old(formData), field, value)
      ensures toasts == old(toasts)
    {
      formData := WithField(formData, field, value);
    }

    /** The message form's submit: one "Message Sent!" notification, then
        every field back to empty, whatever was typed. */
    method HandleSubmit()
      modifies this
      ensures toasts == old(toasts) + [MessageSent]
      ensures formData == EmptyForm()
    {
      toasts := toasts + [MessageSent];
      formData := FormData("", "", "", "", "");
    }

    /** The newsletter form's submit: one "Subscribed!" notification; the
        message form is left as it is. */
    method HandleNewsletterSubmit()
      modifies this
      ensures toasts == old(toasts) + [Subscribed]
      ensures formData == old(formData)
    {
      toasts := toasts + [Subscribed];
    }
  }

  /** A visitor fills in three fields and sends the form: before sending
      the form holds exactly what was typed, afterwards it is exactly as
      it started, and exactly one notification was shown. */
  method FillAndSubmitScenario(name: string, email: string, message: string)
    returns (before: FormData, after: FormData, ghost shown: seq<Toast>)
    ensures before == FormData(name, email, "", "", message)
    ensures after == EmptyForm()
    ensures shown == [MessageSent]
  {
    var form := new ContactForm();
    form.HandleInputChange(Name, name);
    form.HandleInputChange(Email, email);
    form.HandleInputChange(Message, message);
    before := form.formData;
    form.HandleSubmit();
    after, shown := form.formData, form.toasts;
  }
}
