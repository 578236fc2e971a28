/**
 * The floating About / Contact buttons: which panel is open, and the contact
 * form's three fields. Rendering, DOM event routing, `alert` and the POST
 * itself are outside the model; each handler becomes a method on the state.
 */
module ContactButton {

  class Panels {
    /** `isOpen.about` */
    var about: bool
    /** `isOpen.contact` */
    var contact: bool
    /** `formData` */
    var name: string
    var email: string
    var message: string

    /** At most one panel is open. */
    ghost predicate Exclusive()
      reads this
    {
      !(about && contact)
    }

    /** Both panels closed, all fields empty. */
    constructor ()
      ensures !about && !contact && Exclusive()
      ensures name == "" && email == "" && message == ""
    {
      about, contact := false, false;
      name, email, message := "", "", "";
    }

    /** The about button: close the contact panel and flip the about panel. */
    method ToggleAbout()
      modifies this
      ensures !contact && about == !old(about) && Exclusive()
      ensures name == old(name) && email == old(email) && message == old(message)
    {
      about, contact := !about, false;
    }

    /** The contact button: close the about panel and flip the contact panel. */
    method ToggleContact()
      modifies this
      ensures !about && contact == !old(contact) && Exclusive()
      ensures name == old(name) && email == old(email) && message == old(message)
    {
      about, contact := false, !contact;
    }

    /** The about panel's Close button: only the about panel closes. */
    method CloseAbout()
      modifies this
      ensures !about && contact == old(contact) && Exclusive()
      ensures name == old(name) && email == old(email) && message == old(message)
    {
      about := false;
    }

    /** The contact form's Cancel button: both panels close. */
    method Cancel()
      modifies this
      ensures !about && !contact && Exclusive()
      ensures name == old(name) && email == old(email) && message == old(message)
    {
      about, contact := false, false;
    }

    /**
     * A mousedown anywhere on the document. The open panel is mounted only while
     * one is open; a press outside it and outside the contact button closes both.
     */
    method ClickOutside(insidePanel: bool, insideContactButton: bool)
      modifies this
      ensures if (old(about) || old(contact)) && !insidePanel && !insideContactButton
              then !about && !contact
              else about == old(about) && contact == old(contact)
      ensures old(Exclusive()) ==> Exclusive()
      ensures name == old(name) && email == old(email) && message == old(message)
    {
      var panelMounted := about || contact;
      if panelMounted && !insidePanel && !insideContactButton {
        about, contact := false, false;
      }
    }

    /**
     * The form submit: once the POST resolves, both panels close and the fields
     * are cleared; when it rejects nothing changes.
     */
    method Submit(delivered: bool)
      modifies this
      ensures delivered ==> !about && !contact && name == "" && email == "" && message == ""
      ensures !delivered ==> about == old(about) && contact == old(contact)
      ensures !delivered ==> name == old(name) && email == old(email) && message == old(message)
      ensures old(Exclusive()) ==> Exclusive()
    {
      if delivered {
        about, contact := false, false;
        name, email, message := "", "", "";
      }
    }

    /** Typing in the name field. */
    method EditName(value: string)
      modifies this
      ensures name == value && email == old(email) && message == old(message)
      ensures about == old(about) && contact == old(contact)
    {
      name := value;
    }

    /** Typing in the email field. */
    method EditEmail(value: string)
      modifies this
      ensures email == value && name == old(name) && message == old(message)
      ensures about == old(about) && contact == old(contact)
    {
      email := value;
    }

    /** Typing in the message field. */
    method EditMessage(value: string)
      modifies this
      ensures message == value && name == old(name) && email == old(email)
      ensures about == old(about) && contact == old(contact)
    {
      message := value;
    }
  }
}
