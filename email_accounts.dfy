/** The admin service behind the email-account pages: the defaults of a new
    account form, and the insert and update of an account from the form,
    where the password is handled by hand rather than by the mapper. */
module EmailAccounts {
  import opened Common

  /** An SMTP account as stored. A null password is None. */
  datatype EmailAccount = EmailAccount(
    id: string,
    email: string,
    displayName: string,
    host: string,
    port: int,
    username: string,
    password: Option<string>,
    useServerCertificateValidation: bool,
    secureSocketOptions: int)

  /** The form model of an account page. */
  datatype EmailAccountModel = EmailAccountModel(
    id: string,
    email: string,
    displayName: string,
    host: string,
    port: int,
    username: string,
    password: Option<string>,
    useServerCertificateValidation: bool,
    secureSocketOptions: int,
    sendTestEmailTo: string)

  /** The port a new account form starts with: the SMTP port. */
  const DefaultPort: int := 25

  /** A write the account service was asked to make. */
  datatype Write = Inserted(account: EmailAccount) | Updated(account: EmailAccount)

  /** The form for a new account: port 25, every other value at its default
      (null strings, no password, false flags, option 0). */
  function PrepareEmailAccountModel(): (m: EmailAccountModel)
    ensures m.port == DefaultPort
    ensures m.password.None? && m.id == "" && m.email == "" && m.displayName == ""
    ensures m.host == "" && m.username == "" && m.sendTestEmailTo == ""
    ensures !m.useServerCertificateValidation && m.secureSocketOptions == 0
  {
    EmailAccountModel("", "", "", "", DefaultPort, "", None, false, 0, "")
  }

  /** The entity an insert stores: what the mapper makes of the form, with
      the form's password set on it, even a null or empty one. */
  function NewAccount(mapNew: EmailAccountModel -> EmailAccount, model: EmailAccountModel): (a: EmailAccount)
    ensures a.password == model.password
    ensures a.(password := mapNew(model).password) == mapNew(model)
  {
    mapNew(model).(password := model.password)
  }

  /** The entity an update stores: the form mapped onto the stored account,
      whose password the form's replaces only when it is neither null nor
      empty. */
  function UpdatedAccount(mapOnto: (EmailAccountModel, EmailAccount) -> EmailAccount,
                          stored: EmailAccount, model: EmailAccountModel): (a: EmailAccount)
    ensures !IsNullOrEmpty(model.password) ==> a.password == model.password
    ensures IsNullOrEmpty(model.password) ==> a.password == mapOnto(model, stored).password
    ensures a.(password := mapOnto(model, stored).password) == mapOnto(model, stored)
  {
    var mapped := mapOnto(model, stored);
    if !IsNullOrEmpty(model.password) then mapped.(password := model.password) else mapped
  }

  /** A mapper that copies the form's port onto the new entity. */
  ghost predicate CopiesPort(mapNew: EmailAccountModel -> EmailAccount)
  {
    forall m :: mapNew(m).port == m.port
  }

  /** A mapper that leaves the password of the entity it maps onto alone,
      as a mapping that ignores the password member does. */
  ghost predicate KeepsPassword(mapOnto: (EmailAccountModel, EmailAccount) -> EmailAccount)
  {
    forall m, a :: mapOnto(m, a).password == a.password
  }

  /** Saving the untouched new-account form stores an account on port 25
      with no password. */
  lemma DefaultFormAccount(mapNew: EmailAccountModel -> EmailAccount)
    requires CopiesPort(mapNew)
    ensures NewAccount(mapNew, PrepareEmailAccountModel()).port == DefaultPort
    ensures NewAccount(mapNew, PrepareEmailAccountModel()).password.None?
  {
    var m := PrepareEmailAccountModel();
    assert mapNew(m).port == m.port;
  }

  /** With a mapper that ignores the password, an update keeps the stored
      password exactly when the form's is null or empty, and otherwise
      stores the form's. */
  lemma UpdatePasswordRule(mapOnto: (EmailAccountModel, EmailAccount) -> EmailAccount,
                           stored: EmailAccount, model: EmailAccountModel)
    requires KeepsPassword(mapOnto)
    ensures IsNullOrEmpty(model.password) ==> UpdatedAccount(mapOnto, stored, model).password == stored.password
    ensures !IsNullOrEmpty(model.password) ==> UpdatedAccount(mapOnto, stored, model).password == model.password
    ensures UpdatedAccount(mapOnto, stored, model).password == stored.password
            <==> IsNullOrEmpty(model.password) || model.password == stored.password
  {
    assert mapOnto(model, stored).password == stored.password;
  }

  /** Saving a form with an empty password twice stores the same password
      as saving it once. */
  lemma UpdateKeepsPasswordTwice(mapOnto: (EmailAccountModel, EmailAccount) -> EmailAccount,
                                 stored: EmailAccount, model: EmailAccountModel)
    requires KeepsPassword(mapOnto)
    requires IsNullOrEmpty(model.password)
    ensures UpdatedAccount(mapOnto, UpdatedAccount(mapOnto, stored, model), model).password == stored.password
  {
    UpdatePasswordRule(mapOnto, stored, model);
    UpdatePasswordRule(mapOnto, UpdatedAccount(mapOnto, stored, model), model);
  }

  /** The service, with the account service's writes as a log. */
  class EmailAccountViewModelService {
    var writes: seq<Write>
    const mapNew: EmailAccountModel -> EmailAccount
    const mapOnto: (EmailAccountModel, EmailAccount) -> EmailAccount

    constructor (mapNew: EmailAccountModel -> EmailAccount,
                 mapOnto: (EmailAccountModel, EmailAccount) -> EmailAccount)
      ensures writes == [] && this.mapNew == mapNew && this.mapOnto == mapOnto
    {
      writes := [];
      this.mapNew := mapNew;
      this.mapOnto := mapOnto;
    }

    /** Maps the form to a new entity, sets its password from the form,
        inserts it once and returns it. */
    method InsertEmailAccountModel(model: EmailAccountModel) returns (account: EmailAccount)
      modifies this
      ensures account == NewAccount(mapNew, model)
      ensures account.password == model.password
      ensures writes == old(writes) + [Inserted(account)]
    {
      account := mapNew(model);
      account := account.(password := model.password);
      writes := writes + [Inserted(account)];
    }

    /** Maps the form onto the stored account, replaces its password only
        with a non-empty one from the form, updates it once and returns it. */
    method UpdateEmailAccountModel(emailAccount: EmailAccount, model: EmailAccountModel)
      returns (account: EmailAccount)
      modifies this
      ensures account == UpdatedAccount(mapOnto, emailAccount, model)
      ensures KeepsPassword(mapOnto) && IsNullOrEmpty(model.password) ==> account.password == emailAccount.password
      ensures !IsNullOrEmpty(model.password) ==> account.password == model.password
      ensures writes == old(writes) + [Updated(account)]
    {
      account := mapOnto(model, emailAccount);
      if !IsNullOrEmpty(model.password) {
        account := account.(password := model.password);
      }
      writes := writes + [Updated(account)];
      if KeepsPassword(mapOnto) {
        UpdatePasswordRule(mapOnto, emailAccount, model);
      }
    }
  }
}
