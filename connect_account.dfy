/**
 * `POST /api/public/stripe/create-connect-account`, behind `withAuth`: a user without
 * a connected account gets one, created as a company when they have a company name and
 * as an individual otherwise; its id is stored on the user before the onboarding link
 * is requested.
 *
 * The payment processor is a parameter (`Connect`): its answer to creating an account
 * and to creating an onboarding link for it (`Err` when the call throws). The handler
 * ignores the result of storing the account id; `stored` says whether the store
 * accepted that update.
 */
module ConnectAccount {
  import opened Wrappers
  import opened Strings
  import opened Database
  import opened Store

  datatype BusinessType = Company | Individual

  /** The fields of the account request that depend on the user (type `express`, country `FR` and the capabilities are fixed). */
  datatype AccountRequest = AccountRequest(email: string, businessType: BusinessType, name: string, supportEmail: string, supportPhone: string)

  datatype Connect = Connect(createAccount: AccountRequest -> Result<string>, createLink: string -> Result<string>)

  /** The answer's status, the account id and onboarding link it carries, and the tables afterwards. */
  datatype ConnectOutcome = ConnectOutcome(status: nat, accountId: Option<string>, onboardingUrl: Option<string>, tables: Tables)

  /** The request built from the user's row: a company name, when non-empty, decides both the type and the name. */
  function AccountRequestFor(user: User): (r: AccountRequest)
    ensures r.businessType == Company <==> Truthy(user.companyName)
    ensures Truthy(user.companyName) ==> r.name == user.companyName.value
    ensures !Truthy(user.companyName) ==> r.name == user.firstname + " " + user.lastname
    ensures r.email == user.email && r.supportEmail == user.email && r.supportPhone == user.tel
  {
    AccountRequest(user.email, if Truthy(user.companyName) then Company else Individual,
                   OrElse(user.companyName, user.firstname + " " + user.lastname), user.email, user.tel)
  }

  function SetAccount(accountId: string): User -> User
  {
    (u: User) => u.(stripeAccountId := Some(accountId))
  }

  function CreateConnectAccountOutcome(t: Tables, caller: string, httpMethod: string, stripe: Connect, stored: bool): ConnectOutcome
  {
    if httpMethod != "POST" then ConnectOutcome(405, None, None, t)
    else match Single(t.users, UserIs(caller))
      case None => ConnectOutcome(404, None, None, t)
      case Some(user) =>
        if Truthy(user.stripeAccountId) then ConnectOutcome(400, None, None, t)
        else match stripe.createAccount(AccountRequestFor(user))
          case Err(_) => ConnectOutcome(500, None, None, t)
          case Ok(accountId) =>
            var t' := if stored then t.(users := UpdateWhere(t.users, UserIs(caller), SetAccount(accountId))) else t;
            match stripe.createLink(accountId)
            case Err(_) => ConnectOutcome(500, None, None, t')
            case Ok(url) => ConnectOutcome(200, Some(accountId), Some(url), t')
  }

  method CreateConnectAccount(db: Db, caller: string, httpMethod: string, stripe: Connect, stored: bool)
    returns (status: nat, accountId: Option<string>, onboardingUrl: Option<string>)
    modifies db
    ensures ConnectOutcome(status, accountId, onboardingUrl, db.State())
      == CreateConnectAccountOutcome(old(db.State()), caller, httpMethod, stripe, stored)
  {
    if httpMethod != "POST" {
      return 405, None, None;
    }
    var user := Single(db.users, UserIs(caller));
    if user.None? {
      return 404, None, None;
    }
    if Truthy(user.value.stripeAccountId) {
      return 400, None, None;
    }
    var account := stripe.createAccount(AccountRequestFor(user.value));
    if account.Err? {
      return 500, None, None;
    }
    if stored {
      db.users := UpdateWhere(db.users, UserIs(caller), SetAccount(account.value));
    }
    var link := stripe.createLink(account.value);
    if link.Err? {
      return 500, None, None;
    }
    return 200, Some(account.value), Some(link.value);
  }

  // ---------------------------------------------------------------------------
  // Properties

  /**
   * Nothing is written before the account exists: a refused request, or an account
   * the processor fails to create, leaves the tables as they were.
   */
  lemma NothingWrittenWithoutAccount(t: Tables, caller: string, httpMethod: string, stripe: Connect, stored: bool)
    ensures var r := CreateConnectAccountOutcome(t, caller, httpMethod, stripe, stored);
      && r.status in {200, 400, 404, 405, 500}
      && (r.status == 200 <==> r.accountId.Some? && r.onboardingUrl.Some?)
      && (r.tables != t ==>
            && stored && Single(t.users, UserIs(caller)).Some?
            && stripe.createAccount(AccountRequestFor(Single(t.users, UserIs(caller)).value)).Ok?)
  {
  }

  /**
   * Once the account exists and its id is stored, the caller's row holds it and no
   * other column or row changes — even when the onboarding link then fails and the
   * request is answered 500. The `validated_by_stripe` flag is left for the account
   * webhook to set.
   */
  lemma AccountIdStored(t: Tables, caller: string, stripe: Connect)
    requires Single(t.users, UserIs(caller)).Some? && !Truthy(Single(t.users, UserIs(caller)).value.stripeAccountId)
    requires stripe.createAccount(AccountRequestFor(Single(t.users, UserIs(caller)).value)).Ok?
    ensures var user := Single(t.users, UserIs(caller)).value;
      var accountId := stripe.createAccount(AccountRequestFor(user)).value;
      var r := CreateConnectAccountOutcome(t, caller, "POST", stripe, true);
      && (r.status == 200 <==> stripe.createLink(accountId).Ok?)
      && (r.status == 200 ==> r.accountId == Some(accountId))
      && r.tables.(users := t.users) == t
      && Single(r.tables.users, UserIs(caller)) == Some(user.(stripeAccountId := Some(accountId)))
      && Single(r.tables.users, UserIs(caller)).value.validatedByStripe == user.validatedByStripe
  {
    var accountId := stripe.createAccount(AccountRequestFor(Single(t.users, UserIs(caller)).value)).value;
    SingleAfterUpdate(t.users, UserIs(caller), SetAccount(accountId));
  }

  /**
   * An account is created at most once per user: once the first request has stored
   * a non-empty account id, a second request is refused with 400 and changes nothing,
   * and the processor is not asked for a second account.
   */
  lemma SecondAccountRefused(t: Tables, caller: string, stripe: Connect, stripe2: Connect, stored2: bool)
    requires Single(t.users, UserIs(caller)).Some? && !Truthy(Single(t.users, UserIs(caller)).value.stripeAccountId)
    requires var created := stripe.createAccount(AccountRequestFor(Single(t.users, UserIs(caller)).value));
      created.Ok? && created.value != []
    ensures var r := CreateConnectAccountOutcome(t, caller, "POST", stripe, true);
      CreateConnectAccountOutcome(r.tables, caller, "POST", stripe2, stored2) == ConnectOutcome(400, None, None, r.tables)
  {
    var user := Single(t.users, UserIs(caller)).value;
    var accountId := stripe.createAccount(AccountRequestFor(user)).value;
    SingleAfterUpdate(t.users, UserIs(caller), SetAccount(accountId));
  }

  /** The type and name sent for a user with and without a company name. */
  lemma BusinessProfile(user: User)
    ensures user.companyName == Some("ALIF SAS") ==> AccountRequestFor(user).businessType == Company && AccountRequestFor(user).name == "ALIF SAS"
    ensures user.companyName == Some("") ==> AccountRequestFor(user).businessType == Individual
    ensures user.companyName.None? && user.firstname == "Ada" && user.lastname == "Lovelace"
      ==> AccountRequestFor(user).name == "Ada Lovelace"
  {
  }
}
