/** The booking page's controller (src/App.tsx): the state the page keeps
    and the handlers that change it. Rendering is not modelled; the pages
    only show what these fields hold. */
module BookingApp {
  import opened Optional
  import opened Currencies
  import opened ShippingTypes
  import opened ShippingCalculator
  import opened LanguageToggle
  import opened AdminTypes

  datatype Page = Home | Settings | Contact | AdminPage

  datatype PaymentStatus = Idle | Processing | Success | PaymentError

  /** The part of a signed-in user's profile the page reads. */
  datatype Profile = Profile(role: Role)

  /** The user object the sign-in dialog hands over. */
  datatype AuthUser = AuthUser(id: string, profile: Option<Profile>)

  /** One row of the translation table: the English and the French text. */
  datatype Entry = Entry(en: string, fr: string)

  function InLanguage(e: Entry, language: Language): string {
    if language == En then e.en else e.fr
  }

  /** `t(key)`: the text of `key` in the current language; the key itself
      when the table has no row for it or that row's text is empty. */
  function Translate(translations: map<string, Entry>, language: Language, key: string): (text: string)
    ensures key in translations && InLanguage(translations[key], language) != "" ==>
              text == InLanguage(translations[key], language)
    ensures key !in translations ==> text == key
    ensures text == key || (key in translations && text == InLanguage(translations[key], language))
    ensures text == "" ==> key == ""
  {
    if key in translations && InLanguage(translations[key], language) != "" then
      InLanguage(translations[key], language)
    else
      key
  }

  /** A key whose row is blank in one language shows the key in that
      language only; the other language still shows its own text. */
  lemma BlankTextFallsBackToKey(translations: map<string, Entry>, key: string)
    requires key in translations && translations[key].fr == "" && translations[key].en != ""
    ensures Translate(translations, Fr, key) == key
    ensures Translate(translations, En, key) == translations[key].en
  {
  }

  class App {
    var language: Language
    var currentPage: Page
    var isMenuOpen: bool
    var currentCurrency: Currency
    var showPayment: bool
    var paymentStatus: PaymentStatus
    var userRole: Role
    var isLoggedIn: bool
    var currentUser: Option<AuthUser>
    var shippingData: ShippingData

    /** The display currency is one of the table's, and no handler ever
        sets the status `Processing`. */
    ghost predicate Valid()
      reads this
    {
      currentCurrency in Table && paymentStatus != Processing
    }

    /** The page as it first renders: English, the home page, euros, an
        empty form, an anonymous client. */
    constructor ()
      ensures Valid()
      ensures language == En && currentPage == Home && !isMenuOpen
      ensures currentCurrency == Table[0] && currentCurrency.code == EUR
      ensures !showPayment && paymentStatus == Idle
      ensures userRole == Client && !isLoggedIn && currentUser == None
      ensures shippingData == InitialShippingData
    {
      language := En;
      currentPage := Home;
      isMenuOpen := false;
      currentCurrency := Table[0];
      showPayment := false;
      paymentStatus := Idle;
      userRole := Client;
      isLoggedIn := false;
      currentUser := None;
      shippingData := InitialShippingData;
    }

    /** `costs`: the calculator's result for the current form and
        currency; in a table currency a non-negative breakdown whose total is
        shipping plus insurance. */
    function Costs(): (c: Costs)
      reads this
      ensures c.total == c.shipping + c.insurance
      ensures currentCurrency in Table ==> 0.0 <= c.shipping && 0.0 <= c.insurance
    {
      TableWellFormed();
      CostsFor(shippingData, currentCurrency)
    }

    /** The ship button is disabled when the total is zero, which in a
        table currency is exactly when no positive weight is entered. */
    function ShipDisabled(): (disabled: bool)
      reads this
      ensures disabled <==> Costs().total == 0.0
      ensures currentCurrency in Table ==> (disabled <==> shippingData.weight <= 0.0)
    {
      TableWellFormed();
      Costs().total == 0.0
    }

    /** The PayPal button is disabled while the status is `Processing`,
        which no handler sets: in a valid state it is always enabled. */
    function PayDisabled(): (disabled: bool)
      reads this
      ensures disabled <==> paymentStatus == Processing
      ensures paymentStatus != Processing ==> !disabled
      ensures Valid() ==> !disabled
    {
      paymentStatus == Processing
    }

    /** `updateShippingData`: the supplied fields overwrite the form's. */
    method UpdateShippingData(updates: ShippingPatch)
      requires Valid()
      modifies this
      ensures Valid()
      ensures shippingData == Merge(old(shippingData), updates)
      ensures !TouchesPricing(updates) ==> Costs() == old(Costs())
      ensures language == old(language) && currentPage == old(currentPage)
      ensures isMenuOpen == old(isMenuOpen) && currentCurrency == old(currentCurrency)
      ensures showPayment == old(showPayment) && paymentStatus == old(paymentStatus)
      ensures userRole == old(userRole) && isLoggedIn == old(isLoggedIn)
      ensures currentUser == old(currentUser)
    {
      if !TouchesPricing(updates) {
        CostsIgnoreOtherFields(shippingData, updates, currentCurrency);
      }
      shippingData := Merge(shippingData, updates);
    }

    /** `handleShipSubmit`: the payment panel replaces the ship button. */
    method HandleShipSubmit()
      requires Valid()
      modifies this
      ensures Valid()
      ensures showPayment
      ensures paymentStatus == old(paymentStatus) && shippingData == old(shippingData)
      ensures currentCurrency == old(currentCurrency) && currentPage == old(currentPage)
      ensures language == old(language) && isMenuOpen == old(isMenuOpen)
      ensures userRole == old(userRole) && isLoggedIn == old(isLoggedIn)
      ensures currentUser == old(currentUser)
    {
      showPayment := true;
    }

    /** `handlePaymentSuccess`, up to the timer it starts. */
    method HandlePaymentSuccess()
      requires Valid()
      modifies this
      ensures Valid()
      ensures paymentStatus == Success
      ensures showPayment == old(showPayment) && shippingData == old(shippingData)
      ensures currentCurrency == old(currentCurrency) && currentPage == old(currentPage)
      ensures language == old(language) && isMenuOpen == old(isMenuOpen)
      ensures userRole == old(userRole) && isLoggedIn == old(isLoggedIn)
      ensures currentUser == old(currentUser)
    {
      paymentStatus := Success;
    }

    /** The timer `handlePaymentSuccess` starts: the panel closes and the
        status returns to idle. */
    method PaymentSuccessTimeout()
      requires Valid()
      modifies this
      ensures Valid()
      ensures !showPayment && paymentStatus == Idle
      ensures shippingData == old(shippingData)
      ensures currentCurrency == old(currentCurrency) && currentPage == old(currentPage)
      ensures language == old(language) && isMenuOpen == old(isMenuOpen)
      ensures userRole == old(userRole) && isLoggedIn == old(isLoggedIn)
      ensures currentUser == old(currentUser)
    {
      showPayment := false;
      paymentStatus := Idle;
    }

    /** `handlePaymentError`, up to the timer it starts. */
    method HandlePaymentError()
      requires Valid()
      modifies this
      ensures Valid()
      ensures paymentStatus == PaymentError
      ensures showPayment == old(showPayment) && shippingData == old(shippingData)
      ensures currentCurrency == old(currentCurrency) && currentPage == old(currentPage)
      ensures language == old(language) && isMenuOpen == old(isMenuOpen)
      ensures userRole == old(userRole) && isLoggedIn == old(isLoggedIn)
      ensures currentUser == old(currentUser)
    {
      paymentStatus := PaymentError;
    }

    /** The timer `handlePaymentError` starts: the status returns to idle
        and the panel stays open so the user can pay again. */
    method PaymentErrorTimeout()
      requires Valid()
      modifies this
      ensures Valid()
      ensures paymentStatus == Idle
      ensures showPayment == old(showPayment) && shippingData == old(shippingData)
      ensures currentCurrency == old(currentCurrency) && currentPage == old(currentPage)
      ensures language == old(language) && isMenuOpen == old(isMenuOpen)
      ensures userRole == old(userRole) && isLoggedIn == old(isLoggedIn)
      ensures currentUser == old(currentUser)
    {
      paymentStatus := Idle;
    }

    /** The cancel button under the PayPal button: back to the ship
        button, the status untouched. */
    method CancelPayment()
      requires Valid()
      modifies this
      ensures Valid()
      ensures !showPayment
      ensures paymentStatus == old(paymentStatus) && shippingData == old(shippingData)
      ensures currentCurrency == old(currentCurrency) && currentPage == old(currentPage)
      ensures language == old(language) && isMenuOpen == old(isMenuOpen)
      ensures userRole == old(userRole) && isLoggedIn == old(isLoggedIn)
      ensures currentUser == old(currentUser)
    {
      showPayment := false;
    }

    /** `handleAdminLogin`: an administrator, signed in, on the admin
        page. */
    method HandleAdminLogin()
      requires Valid()
      modifies this
      ensures Valid()
      ensures userRole == Admin && isLoggedIn && currentPage == AdminPage
      ensures currentUser == old(currentUser)
      ensures showPayment == old(showPayment) && paymentStatus == old(paymentStatus)
      ensures shippingData == old(shippingData) && currentCurrency == old(currentCurrency)
      ensures language == old(language) && isMenuOpen == old(isMenuOpen)
    {
      userRole := Admin;
      isLoggedIn := true;
      currentPage := AdminPage;
    }

    /** `handleLogout`: an anonymous client on the home page. */
    method HandleLogout()
      requires Valid()
      modifies this
      ensures Valid()
      ensures userRole == Client && !isLoggedIn && currentUser == None && currentPage == Home
      ensures showPayment == old(showPayment) && paymentStatus == old(paymentStatus)
      ensures shippingData == old(shippingData) && currentCurrency == old(currentCurrency)
      ensures language == old(language) && isMenuOpen == old(isMenuOpen)
    {
      userRole := Client;
      isLoggedIn := false;
      currentUser := None;
      currentPage := Home;
    }

    /** `handleAuthSuccess`: the user is stored and signed in; a profile,
        when there is one, sets the role whatever it is, and an
        administrator's profile also opens the admin page. */
    method HandleAuthSuccess(user: AuthUser)
      requires Valid()
      modifies this
      ensures Valid()
      ensures currentUser == Some(user) && isLoggedIn
      ensures user.profile.Some? ==> userRole == user.profile.value.role
      ensures user.profile.None? ==> userRole == old(userRole)
      ensures user.profile.Some? && user.profile.value.role == Admin ==> currentPage == AdminPage
      ensures !(user.profile.Some? && user.profile.value.role == Admin) ==> currentPage == old(currentPage)
      ensures showPayment == old(showPayment) && paymentStatus == old(paymentStatus)
      ensures shippingData == old(shippingData) && currentCurrency == old(currentCurrency)
      ensures language == old(language) && isMenuOpen == old(isMenuOpen)
    {
      currentUser := Some(user);
      isLoggedIn := true;
      if user.profile.Some? {
        userRole := user.profile.value.role;
        if user.profile.value.role == Admin {
          currentPage := AdminPage;
        }
      }
    }

    /** `setCurrentPage`, as the menu and the back buttons call it. */
    method Navigate(page: Page)
      requires Valid()
      modifies this
      ensures Valid()
      ensures currentPage == page
      ensures userRole == old(userRole) && isLoggedIn == old(isLoggedIn)
      ensures currentUser == old(currentUser)
      ensures showPayment == old(showPayment) && paymentStatus == old(paymentStatus)
      ensures shippingData == old(shippingData) && currentCurrency == old(currentCurrency)
      ensures language == old(language) && isMenuOpen == old(isMenuOpen)
    {
      currentPage := page;
    }

    /** `setIsMenuOpen`, from the menu button and the menu's close. */
    method SetMenuOpen(open: bool)
      requires Valid()
      modifies this
      ensures Valid()
      ensures isMenuOpen == open
      ensures currentPage == old(currentPage)
      ensures userRole == old(userRole) && isLoggedIn == old(isLoggedIn)
      ensures currentUser == old(currentUser)
      ensures showPayment == old(showPayment) && paymentStatus == old(paymentStatus)
      ensures shippingData == old(shippingData) && currentCurrency == old(currentCurrency)
      ensures language == old(language)
    {
      isMenuOpen := open;
    }

    /** `setCurrentCurrency` from the settings page, which offers the
        table's currencies. */
    method SelectCurrency(currency: Currency)
      requires Valid() && currency in Table
      modifies this
      ensures Valid()
      ensures currentCurrency == currency
      ensures Costs() == CostsFor(old(shippingData), currency)
      ensures currentPage == old(currentPage)
      ensures userRole == old(userRole) && isLoggedIn == old(isLoggedIn)
      ensures currentUser == old(currentUser)
      ensures showPayment == old(showPayment) && paymentStatus == old(paymentStatus)
      ensures shippingData == old(shippingData)
      ensures language == old(language) && isMenuOpen == old(isMenuOpen)
    {
      currentCurrency := currency;
    }

    /** `setLanguage` as the language toggle calls it: the other
        language. */
    method ToggleLanguage()
      requires Valid()
      modifies this
      ensures Valid()
      ensures language == Toggle(old(language)) && language != old(language)
      ensures currentPage == old(currentPage)
      ensures userRole == old(userRole) && isLoggedIn == old(isLoggedIn)
      ensures currentUser == old(currentUser)
      ensures showPayment == old(showPayment) && paymentStatus == old(paymentStatus)
      ensures shippingData == old(shippingData) && currentCurrency == old(currentCurrency)
      ensures isMenuOpen == old(isMenuOpen)
    {
      language := Toggle(language);
    }
  }

  /** A successful payment ends, once its timer fires, with the panel
      closed and the status idle, whatever the form held. */
  method SuccessfulPaymentRoundTrip(app: App)
    requires app.Valid()
    modifies app
    ensures app.Valid()
    ensures !app.showPayment && app.paymentStatus == Idle
    ensures app.shippingData == old(app.shippingData)
  {
    app.HandleShipSubmit();
    assert app.showPayment;
    app.HandlePaymentSuccess();
    assert app.paymentStatus == Success && app.showPayment;
    app.PaymentSuccessTimeout();
  }

  /** A failed payment leaves the panel open once its timer fires, so the
      user can pay again. */
  method FailedPaymentRoundTrip(app: App)
    requires app.Valid()
    modifies app
    ensures app.Valid()
    ensures app.showPayment && app.paymentStatus == Idle
    ensures app.shippingData == old(app.shippingData)
  {
    app.HandleShipSubmit();
    app.HandlePaymentError();
    assert app.paymentStatus == PaymentError;
    app.PaymentErrorTimeout();
  }

  /** Signing in as an administrator and signing out again returns the
      page to its anonymous state. */
  method AdminSessionRoundTrip(app: App)
    requires app.Valid()
    modifies app
    ensures app.Valid()
    ensures app.userRole == Client && !app.isLoggedIn && app.currentUser == None
    ensures app.currentPage == Home
    ensures app.shippingData == old(app.shippingData)
  {
    app.HandleAdminLogin();
    assert app.currentPage == AdminPage && app.userRole == Admin;
    app.HandleLogout();
  }
}
