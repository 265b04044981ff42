/** The navigation bar of src/components/Navbar.tsx: its own session loader, the
    profile menu's open/closed state, and the display name and initial. */
module Navbar {
  import opened Wrappers
  import opened Text
  import opened Http

  /** The signed-in user as the bar reads it; "" stands for an absent or null field. */
  datatype UserLite = UserLite(id: string, email: string, fullName: string, name: string)

  /** The body of `/auth/me`; `None` when `user` is missing or null. */
  datatype MeBody = MeBody(user: Option<UserLite>)

  const FallbackName: string := "User"

  /** The user `loadMe` leaves behind: the body's `user` after a 2xx reply whose
      JSON parses, and none after every other outcome (401 is not special here). */
  function LoadedUser(reply: Reply<MeBody>): (u: Option<UserLite>)
    ensures u.Some? <==> reply.Response? && IsOk(reply.status)
                         && reply.body.json.Parsed? && reply.body.json.value.user.Some?
    ensures u.Some? ==> u == reply.body.json.value.user
  {
    if reply.Response? && IsOk(reply.status) && reply.body.json.Parsed?
    then reply.body.json.value.user
    else None
  }

  /** `displayName`: the first non-empty of full name, name and email, else "User". */
  function DisplayName(user: Option<UserLite>): (n: string)
    ensures n != ""
    ensures user.None? ==> n == FallbackName
    ensures user.Some? && user.value.fullName != "" ==> n == user.value.fullName
    ensures user.Some? && user.value.fullName == "" && user.value.name != "" ==> n == user.value.name
    ensures user.Some? && user.value.fullName == "" && user.value.name == "" ==>
              n == OrElse(user.value.email, FallbackName)
  {
    match user
    case None => FallbackName
    case Some(u) => OrElse(OrElse(OrElse(u.fullName, u.name), u.email), FallbackName)
  }

  /** `initial`: the display name's first character, upper-cased; never empty. */
  function Initial(user: Option<UserLite>): (s: string)
    ensures |s| == 1
    ensures s[0] == UpperChar(DisplayName(user)[0])
  {
    Upper(OrElse(DisplayName(user), "U")[..1])
  }

  lemma ExampleInitials()
    ensures Initial(None) == "U"
    ensures Initial(Some(UserLite("1", "bee@k.th", "", ""))) == "B"
  {
  }

  class NavbarState {
    var open: bool
    var loading: bool
    var user: Option<UserLite>

    constructor ()
      ensures !open && loading && user == None
    {
      open, loading, user := false, true, None;
    }

    /** The profile container, and so the menu ref, exists only once loading is
        over and a user is present. */
    predicate MenuMounted()
      reads this
    {
      !loading && user.Some?
    }

    /** `loadMe` up to its request (also run on focus and when the tab becomes visible). */
    method BeginLoad()
      modifies this
      ensures loading
      ensures user == old(user) && open == old(open)
    {
      loading := true;
    }

    /** `loadMe` after its request: the user follows the reply; loading ends. */
    method CompleteLoad(reply: Reply<MeBody>)
      modifies this
      ensures user == LoadedUser(reply)
      ensures !loading
      ensures open == old(open)
    {
      if reply.Response? && IsOk(reply.status) {
        match reply.body.json {
          case Parsed(me) => user := me.user;
          case Unparsable(_) => user := None;
        }
      } else {
        user := None;
      }
      loading := false;
    }

    /** `signOut`: once the logout request returns, the user is gone and the menu
        closed; a rejected request throws first and changes nothing. */
    method SignOut(reply: Reply<()>)
      modifies this
      ensures reply.Response? ==> user == None && !open && !MenuMounted()
      ensures reply.Rejected? ==> user == old(user) && open == old(open)
      ensures loading == old(loading)
    {
      if reply.Response? {
        user := None;
        open := false;
      }
    }

    /** The avatar button: flips the menu. */
    method ToggleMenu()
      modifies this
      ensures open == !old(open)
      ensures user == old(user) && loading == old(loading)
    {
      open := !open;
    }

    /** A route change closes the menu. */
    method PathnameChanged()
      modifies this
      ensures !open
      ensures user == old(user) && loading == old(loading)
    {
      open := false;
    }

    /** `keydown`: Escape closes the menu, any other key leaves it. */
    method KeyDown(key: string)
      modifies this
      ensures open == (old(open) && key != "Escape")
      ensures user == old(user) && loading == old(loading)
    {
      if key == "Escape" {
        open := false;
      }
    }

    /** `mousedown`: with the menu mounted, a press outside it closes it and one
        inside leaves it; with no menu mounted nothing changes. */
    method MouseDown(insideMenu: bool)
      modifies this
      ensures open == (old(open) && (!old(MenuMounted()) || insideMenu))
      ensures user == old(user) && loading == old(loading)
    {
      if !MenuMounted() {
        return;
      }
      if !insideMenu {
        open := false;
      }
    }
  }
}
