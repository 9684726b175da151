/** The top-level application state: current view and shop route, the
    cart, the signed-in user and the modal flags, with the handlers that
    update them. */
module App {
  import opened Wrappers
  import opened Text
  import opened CartReducer
  import opened ViewRouter

  // ----- sign-in and sign-up checks -------------------------------------

  /** The error `handleSignIn` throws before calling the auth provider, if any. */
  function SignInError(email: string, password: string): (err: Option<string>)
    ensures err.None? <==> email != "" && password != "" && '@' in email
    ensures (email == "" || password == "") ==> err == Some("Email and password are required")
    ensures email != "" && password != "" && '@' !in email
      ==> err == Some("Please enter a valid email address")
  {
    if email == "" || password == "" then Some("Email and password are required")
    else if '@' !in email then Some("Please enter a valid email address")
    else None
  }

  /** The error `handleSignUp` throws before calling the auth provider, if any. */
  function SignUpError(email: string, password: string, name: string): (err: Option<string>)
    ensures err.None? <==> email != "" && password != "" && name != "" && '@' in email && |password| >= 6
    ensures (email == "" || password == "" || name == "") ==> err == Some("All fields are required")
    ensures email != "" && password != "" && name != "" && '@' !in email
      ==> err == Some("Please enter a valid email address")
    ensures email != "" && password != "" && name != "" && '@' in email && |password| < 6
      ==> err == Some("Password must be at least 6 characters long")
  {
    if email == "" || password == "" || name == "" then Some("All fields are required")
    else if '@' !in email then Some("Please enter a valid email address")
    else if |password| < 6 then Some("Password must be at least 6 characters long")
    else None
  }

  /** The view a loaded profile redirects to. */
  function ProfileLanding(role: string): (view: string)
    ensures view == "healer-dashboard" <==> role == "healer"
    ensures view == "healer-dashboard" || view == "user-dashboard"
  {
    if role == "healer" then "healer-dashboard" else "user-dashboard"
  }

  /** The view a completed sign-up redirects to. */
  function SignUpLanding(role: string): (view: string)
    ensures view == "healer-registration" <==> role == "healer"
    ensures view == "healer-registration" || view == "user-dashboard"
  {
    if role == "healer" then "healer-registration" else "user-dashboard"
  }

  /** What the auth provider answered: an error message, or the user's id. */
  datatype AuthAnswer = AuthRejected(message: string) | AuthAccepted(userId: string)

  class AppState {
    var currentView: string
    var shopRoute: ShopRoute
    var cartItems: seq<LineItem>
    var user: Option<string>
    /** The role of the loaded profile. */
    var userProfile: Option<string>
    var showAuthModal: bool
    var showBookingModal: bool
    var selectedHealer: Option<string>
    var showCartDrawer: bool

    /** The landing route is never set by navigation. */
    predicate Valid()
      reads this
    {
      shopRoute.kind != "landing"
    }

    constructor ()
      ensures Valid()
      ensures currentView == "home" && shopRoute == NoShopRoute && cartItems == []
      ensures user.None? && userProfile.None? && selectedHealer.None?
      ensures !showAuthModal && !showBookingModal && !showCartDrawer
    {
      currentView := "home";
      shopRoute := NoShopRoute;
      cartItems := [];
      user := None;
      userProfile := None;
      showAuthModal := false;
      showBookingModal := false;
      selectedHealer := None;
      showCartDrawer := false;
    }

    /** `handleViewChange(view, params)`: `None` stands for a view that is not
        a string; `narrowViewport` for a window narrower than 768 pixels. */
    method HandleViewChange(view: Option<string>, params: map<string, string>, narrowViewport: bool)
      requires Valid()
      modifies this
      ensures Valid()
      ensures view.None? ==> currentView == old(currentView) && shopRoute == old(shopRoute)
                             && showCartDrawer == old(showCartDrawer)
      ensures view.Some? ==>
        && ViewState(currentView, shopRoute)
           == Navigate(ViewState(old(currentView), old(shopRoute)), view.value, params)
        && showCartDrawer == (old(showCartDrawer) && !narrowViewport)
      ensures cartItems == old(cartItems) && user == old(user) && userProfile == old(userProfile)
      ensures showAuthModal == old(showAuthModal) && showBookingModal == old(showBookingModal)
      ensures selectedHealer == old(selectedHealer)
    {
      if view.None? {
        return;
      }
      if narrowViewport {
        showCartDrawer := false;
      }
      var before := ViewState(currentView, shopRoute);
      NavigateNeverLanding(before, view.value, params);
      var after := Navigate(before, view.value, params);
      currentView := after.currentView;
      shopRoute := after.shopRoute;
    }

    /** `addToCart(product, options)`; `now` stands for `Date.now()`. */
    method AddToCart(product: Option<Product>, opts: AddOptions, now: int)
      modifies this
      ensures cartItems == CartReducer.AddToCart(old(cartItems), product, opts, now)
      ensures Unique(old(cartItems)) ==> Unique(cartItems)
      ensures currentView == old(currentView) && shopRoute == old(shopRoute)
      ensures user == old(user) && userProfile == old(userProfile)
      ensures showAuthModal == old(showAuthModal) && showBookingModal == old(showBookingModal)
      ensures selectedHealer == old(selectedHealer) && showCartDrawer == old(showCartDrawer)
    {
      if Unique(cartItems) {
        AddPreservesUnique(cartItems, product, opts, now);
      }
      cartItems := CartReducer.AddToCart(cartItems, product, opts, now);
    }

    /** `updateCartItem(cartId, updates)`. */
    method UpdateCartItem(cartId: string, updates: Option<Patch>)
      modifies this
      ensures cartItems == CartReducer.UpdateCartItem(old(cartItems), cartId, updates)
      ensures currentView == old(currentView) && shopRoute == old(shopRoute)
      ensures user == old(user) && userProfile == old(userProfile)
      ensures showAuthModal == old(showAuthModal) && showBookingModal == old(showBookingModal)
      ensures selectedHealer == old(selectedHealer) && showCartDrawer == old(showCartDrawer)
    {
      cartItems := CartReducer.UpdateCartItem(cartItems, cartId, updates);
    }

    /** `removeFromCart(cartId)`. */
    method RemoveFromCart(cartId: string)
      modifies this
      ensures cartItems == CartReducer.RemoveFromCart(old(cartItems), cartId)
      ensures currentView == old(currentView) && shopRoute == old(shopRoute)
      ensures user == old(user) && userProfile == old(userProfile)
      ensures showAuthModal == old(showAuthModal) && showBookingModal == old(showBookingModal)
      ensures selectedHealer == old(selectedHealer) && showCartDrawer == old(showCartDrawer)
    {
      cartItems := CartReducer.RemoveFromCart(cartItems, cartId);
    }

    /** `handleSignIn(email, password)`: the checks, then the provider's
        `answer`; on success the user is set, the `profileRole` (when the
        profile loads) redirects, and the modal closes. Returns the thrown error. */
    method HandleSignIn(email: string, password: string, answer: AuthAnswer, profileRole: Option<string>)
      returns (err: Option<string>)
      requires Valid()
      modifies this
      ensures Valid()
      ensures SignInError(email, password).Some? ==> err == SignInError(email, password)
      ensures SignInError(email, password).None? && answer.AuthRejected? ==> err == Some(answer.message)
      ensures err.Some? ==> currentView == old(currentView) && user == old(user)
                            && showAuthModal == old(showAuthModal) && userProfile == old(userProfile)
      ensures err.None? ==> && user == Some(answer.userId) && !showAuthModal
                            && userProfile == (if profileRole.Some? then profileRole else old(userProfile))
                            && currentView == (if profileRole.Some? then ProfileLanding(profileRole.value)
                                               else old(currentView))
      ensures shopRoute == old(shopRoute) && cartItems == old(cartItems)
      ensures showBookingModal == old(showBookingModal) && selectedHealer == old(selectedHealer)
      ensures showCartDrawer == old(showCartDrawer)
    {
      err := SignInError(email, password);
      if err.Some? {
        return;
      }
      if answer.AuthRejected? {
        err := Some(answer.message);
        return;
      }
      user := Some(answer.userId);
      LoadUserProfile(profileRole);
      showAuthModal := false;
    }

    /** `handleSignUp(email, password, name, role)`: the checks, the provider's
        `answer`, then the profile creation (`profileCreated`) and the
        role-based redirect. Returns the thrown error. */
    method HandleSignUp(email: string, password: string, name: string, role: string,
                        answer: AuthAnswer, profileCreated: bool, profileRole: Option<string>)
      returns (err: Option<string>)
      requires Valid()
      modifies this
      ensures Valid()
      ensures SignUpError(email, password, name).Some? ==> err == SignUpError(email, password, name)
      ensures SignUpError(email, password, name).None? && answer.AuthRejected?
        ==> err == Some(answer.message)
      ensures SignUpError(email, password, name).None? && answer.AuthAccepted? && !profileCreated
        ==> err == Some("Failed to create user profile")
      ensures err.Some? ==> currentView == old(currentView) && user == old(user)
                            && showAuthModal == old(showAuthModal) && userProfile == old(userProfile)
      ensures err.None? ==> && user == Some(answer.userId) && !showAuthModal
                            && currentView == SignUpLanding(role)
                            && userProfile == (if profileRole.Some? then profileRole else old(userProfile))
      ensures shopRoute == old(shopRoute) && cartItems == old(cartItems)
      ensures showBookingModal == old(showBookingModal) && selectedHealer == old(selectedHealer)
      ensures showCartDrawer == old(showCartDrawer)
    {
      err := SignUpError(email, password, name);
      if err.Some? {
        return;
      }
      if answer.AuthRejected? {
        err := Some(answer.message);
        return;
      }
      if !profileCreated {
        err := Some("Failed to create user profile");
        return;
      }
      user := Some(answer.userId);
      LoadUserProfile(profileRole);
      showAuthModal := false;
      currentView := SignUpLanding(role);
    }

    /** `loadUserProfile`: when the profile loads, store it and redirect by role. */
    method LoadUserProfile(profileRole: Option<string>)
      requires Valid()
      modifies this
      ensures Valid()
      ensures profileRole.None? ==> currentView == old(currentView) && userProfile == old(userProfile)
      ensures profileRole.Some? ==> currentView == ProfileLanding(profileRole.value)
                                    && userProfile == profileRole
      ensures shopRoute == old(shopRoute) && cartItems == old(cartItems) && user == old(user)
      ensures showAuthModal == old(showAuthModal) && showBookingModal == old(showBookingModal)
      ensures selectedHealer == old(selectedHealer) && showCartDrawer == old(showCartDrawer)
    {
      if profileRole.Some? {
        userProfile := profileRole;
        currentView := ProfileLanding(profileRole.value);
      }
    }

    /** `handleSignOut`: once the provider signs out, the user, the profile and
        the cart are cleared and the home view is shown; the shop route is
        kept. A provider failure changes nothing. */
    method HandleSignOut(providerFailed: bool)
      requires Valid()
      modifies this
      ensures Valid()
      ensures providerFailed ==> currentView == old(currentView) && cartItems == old(cartItems)
                                 && user == old(user) && userProfile == old(userProfile)
      ensures !providerFailed ==> user.None? && userProfile.None? && currentView == "home" && cartItems == []
      ensures shopRoute == old(shopRoute)
      ensures showAuthModal == old(showAuthModal) && showBookingModal == old(showBookingModal)
      ensures selectedHealer == old(selectedHealer) && showCartDrawer == old(showCartDrawer)
    {
      if providerFailed {
        return;
      }
      user := None;
      userProfile := None;
      currentView := "home";
      cartItems := [];
    }

    /** `handleBookHealer(healer)`: without a user the sign-in modal opens;
        with one, a healer object opens the booking modal for it. */
    method HandleBookHealer(healer: Option<string>)
      modifies this
      ensures user.None? ==> showAuthModal && showBookingModal == old(showBookingModal)
                             && selectedHealer == old(selectedHealer)
      ensures user.Some? && healer.Some? ==>
        showBookingModal && selectedHealer == healer && showAuthModal == old(showAuthModal)
      ensures user.Some? && healer.None? ==>
        && showBookingModal == old(showBookingModal)
        && selectedHealer == old(selectedHealer)
        && showAuthModal == old(showAuthModal)
      ensures user == old(user) && userProfile == old(userProfile) && cartItems == old(cartItems)
      ensures currentView == old(currentView) && shopRoute == old(shopRoute)
      ensures showCartDrawer == old(showCartDrawer)
    {
      if user.None? {
        showAuthModal := true;
        return;
      }
      if healer.Some? {
        selectedHealer := healer;
        showBookingModal := true;
      }
    }

    /** `handleHealerRegistration`: without a user the sign-in modal opens;
        otherwise the registration view is shown (the shop route is kept). */
    method HandleHealerRegistration()
      requires Valid()
      modifies this
      ensures Valid()
      ensures user.None? ==> showAuthModal && currentView == old(currentView)
      ensures user.Some? ==> currentView == "healer-registration" && showAuthModal == old(showAuthModal)
      ensures user == old(user) && userProfile == old(userProfile) && cartItems == old(cartItems)
      ensures shopRoute == old(shopRoute) && showBookingModal == old(showBookingModal)
      ensures selectedHealer == old(selectedHealer) && showCartDrawer == old(showCartDrawer)
    {
      if user.None? {
        showAuthModal := true;
        return;
      }
      currentView := "healer-registration";
    }

    /** The page the application shows. */
    function CurrentPage(): (p: Page)
      reads this
      requires Valid()
      ensures p.Shop? <==> currentView == "shop"
      ensures currentView !in KnownViews ==> p == HomePage
      ensures p.Shop? && p.shop.ShopLandingPage? <==> currentView == "shop" && shopRoute.kind !in KnownShopRoutes
    {
      Resolve(ViewState(currentView, shopRoute))
    }
  }
}
