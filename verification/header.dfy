/** The page header (src/app/components/header/header.component.ts): the badge
    count and user name derived from the streams it follows, and its menu flags. */
module Header {
  import opened Common
  import opened UserModel
  import Cart
  import Auth

  /** `cart.reduce((acc, item) => acc + item.quantity, acc)`, a left fold. */
  function Reduce(acc: int, cart: seq<Cart.CartItem>): int
    decreases |cart|
  {
    if cart == [] then acc else Reduce(acc + cart[0].quantity, cart[1..])
  }

  /** Folding from the left adds up the same quantities as the cart's total. */
  lemma {:induction false} ReduceIsSum(acc: int, cart: seq<Cart.CartItem>)
    decreases |cart|
    ensures Reduce(acc, cart) == acc + Cart.TotalQuantity(cart)
  {
    if cart != [] {
      ReduceIsSum(acc + cart[0].quantity, cart[1..]);
    }
  }

  /** The badge: the sum of the quantities of every line, 0 for an empty cart. */
  function CartCount(cart: seq<Cart.CartItem>): (n: int)
    ensures n == Cart.TotalQuantity(cart)
    ensures cart == [] ==> n == 0
  {
    ReduceIsSum(0, cart);
    Reduce(0, cart)
  }

  /** A guest add raises the badge by exactly one, whatever quantity was passed. */
  lemma BadgeCountsOneAdd(cart: seq<Cart.CartItem>, item: Cart.CartItem)
    ensures CartCount(Cart.AddGuest(cart, item)) == CartCount(cart) + 1
  {
    Cart.AddGuestAddsOneUnit(cart, item);
  }

  /** `email.split('@')[0]`: the part before the first '@', or the whole
      address when it has none. */
  function LocalPart(email: string): (r: string)
    ensures r <= email
    ensures '@' !in r
    ensures |r| < |email| ==> email[|r|] == '@'
  {
    if email == [] then []
    else if email[0] == '@' then []
    else [email[0]] + LocalPart(email[1..])
  }

  /** The name shown for a user value: a non-empty display name, else the local
      part of the e-mail address; null without a user. */
  function Username(user: Option<User>): (name: Option<string>)
    ensures name.None? <==> user.None?
    ensures user.Some? && user.value.displayName.Some? && user.value.displayName.value != "" ==>
      name == user.value.displayName
    ensures user.Some? && !(user.value.displayName.Some? && user.value.displayName.value != "") ==>
      name == Some(LocalPart(user.value.email))
  {
    match user
    case None => None
    case Some(u) =>
      if u.displayName.Some? && u.displayName.value != "" then u.displayName
      else Some(LocalPart(u.email))
  }

  class HeaderComponent {
    var isLoggedIn: bool
    var username: Option<string>
    var cartCount: int
    var isMobile: bool
    var sidebarOpen: bool
    var accountDropdownOpen: bool

    constructor()
      ensures !isLoggedIn && username == None && cartCount == 0
      ensures !isMobile && !sidebarOpen && !accountDropdownOpen
    {
      isLoggedIn := false;
      username := None;
      cartCount := 0;
      isMobile := false;
      sidebarOpen := false;
      accountDropdownOpen := false;
    }

    /** The `user$` subscriber: logged in exactly when a user is emitted. */
    method OnUser(user: Option<User>)
      modifies this
      ensures isLoggedIn <==> user.Some?
      ensures username == Username(user)
      ensures cartCount == old(cartCount) && isMobile == old(isMobile)
      ensures sidebarOpen == old(sidebarOpen) && accountDropdownOpen == old(accountDropdownOpen)
    {
      isLoggedIn := user.Some?;
      username := Username(user);
    }

    /** The `cart$` subscriber: the badge shows the number of units in the latest cart. */
    method OnCart(cart: seq<Cart.CartItem>)
      modifies this
      ensures cartCount == Cart.TotalQuantity(cart)
      ensures isLoggedIn == old(isLoggedIn) && username == old(username) && isMobile == old(isMobile)
      ensures sidebarOpen == old(sidebarOpen) && accountDropdownOpen == old(accountDropdownOpen)
    {
      cartCount := CartCount(cart);
    }

    /** The breakpoint subscriber: leaving the narrow layout closes an open sidebar. */
    method OnBreakpoint(matches: bool)
      modifies this
      ensures isMobile == matches
      ensures !matches ==> !sidebarOpen
      ensures matches ==> sidebarOpen == old(sidebarOpen)
      ensures isLoggedIn == old(isLoggedIn) && username == old(username) && cartCount == old(cartCount)
      ensures accountDropdownOpen == old(accountDropdownOpen)
    {
      isMobile := matches;
      if !isMobile && sidebarOpen {
        CloseSidebar();
      }
    }

    method ToggleSidebar()
      modifies this
      ensures sidebarOpen == !old(sidebarOpen)
      ensures isLoggedIn == old(isLoggedIn) && username == old(username) && cartCount == old(cartCount)
      ensures isMobile == old(isMobile) && accountDropdownOpen == old(accountDropdownOpen)
    {
      sidebarOpen := !sidebarOpen;
    }

    method CloseSidebar()
      modifies this
      ensures !sidebarOpen
      ensures isLoggedIn == old(isLoggedIn) && username == old(username) && cartCount == old(cartCount)
      ensures isMobile == old(isMobile) && accountDropdownOpen == old(accountDropdownOpen)
    {
      sidebarOpen := false;
    }

    /** `logout`: once the sign-out succeeds, go to '/login' and close the
        sidebar; a failed sign-out skips both. */
    method Logout(auth: Auth.AuthService, signOut: Result<()>) returns (navigate: Option<string>)
      modifies this, auth
      ensures signOut.Ok? ==> navigate == Some("/login") && !sidebarOpen && auth.current == None
      ensures signOut.Err? ==>
        navigate == None && sidebarOpen == old(sidebarOpen) && auth.current == old(auth.current)
      ensures isLoggedIn == old(isLoggedIn) && username == old(username) && cartCount == old(cartCount)
      ensures isMobile == old(isMobile) && accountDropdownOpen == old(accountDropdownOpen)
    {
      var r := auth.Logout(signOut);
      navigate := None;
      if r.Ok? {
        navigate := Some("/login");
        CloseSidebar();
      }
    }

    method ToggleAccountDropdown()
      modifies this
      ensures accountDropdownOpen == !old(accountDropdownOpen)
      ensures isLoggedIn == old(isLoggedIn) && username == old(username) && cartCount == old(cartCount)
      ensures isMobile == old(isMobile) && sidebarOpen == old(sidebarOpen)
    {
      accountDropdownOpen := !accountDropdownOpen;
    }

    method CloseAccountDropdown()
      modifies this
      ensures !accountDropdownOpen
      ensures isLoggedIn == old(isLoggedIn) && username == old(username) && cartCount == old(cartCount)
      ensures isMobile == old(isMobile) && sidebarOpen == old(sidebarOpen)
    {
      accountDropdownOpen := false;
    }
  }
}
