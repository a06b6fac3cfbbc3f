/**
 * The dashboard entry page (`app/page.tsx`): on mount it checks the stored
 * session, clears a bad one, and sends the browser to the login page when
 * there is no usable session.
 */
module HomePage {
  import opened Wrappers
  import opened Records
  import opened Session

  class HomeView {
    var checkingSession: bool
    var navigations: seq<Navigation>

    constructor()
      ensures checkingSession && navigations == []
    {
      checkingSession := true;
      navigations := [];
    }

    /** The mount effect. */
    method CheckSession(slot: SessionSlot, parse: string -> ParseResult)
      modifies this, slot
      ensures !checkingSession
      ensures Check(old(slot.value), parse) == NoSession ==>
        slot.value == old(slot.value) && navigations == old(navigations) + [Replace(LoginPath)]
      ensures Check(old(slot.value), parse) == Invalid ==>
        slot.value == None && navigations == old(navigations) + [Replace(LoginPath)]
      ensures Check(old(slot.value), parse).Valid? ==>
        slot.value == old(slot.value) && navigations == old(navigations)
    {
      var verdict := Check(slot.value, parse);
      match verdict {
        case NoSession =>
          navigations := navigations + [Replace(LoginPath)];
        case Invalid =>
          slot.RemoveItem();
          navigations := navigations + [Replace(LoginPath)];
        case Valid(_) =>
      }
      checkingSession := false;
    }
  }
}
