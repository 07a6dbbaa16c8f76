/** The user table the two webhooks write (the Prisma `user` model behind `db.user`, whose
    schema is not part of this model). Rows are keyed by Clerk user id; the Stripe customer
    id is unique, as the `update` calls keyed by it require. Each database call is a
    function from the table to the new table, or `None` when the call throws. */
module Users {
  import opened Wrappers

  datatype User = User(
    clerkId: string,
    email: string,
    username: Option<string>,
    googleId: Option<string>,
    /** `None` until a webhook writes one: the column's default applies. */
    role: Option<string>,
    stripeCustomerId: Option<string>,
    stripeSubscriptionId: Option<string>)

  type Table = map<string, User>

  /** Rows are stored under their own Clerk id, and no two rows share a customer id. */
  ghost predicate ValidTable(t: Table) {
    && (forall k :: k in t ==> t[k].clerkId == k)
    && (forall k1, k2 :: k1 in t && k2 in t && k1 != k2 && t[k1].stripeCustomerId.Some? ==>
          t[k1].stripeCustomerId != t[k2].stripeCustomerId)
  }

  /** Some row other than `clerkId` already holds `customer`. */
  predicate CustomerTaken(t: Table, customer: Option<string>, clerkId: string) {
    customer.Some? && exists k :: k in t && k != clerkId && t[k].stripeCustomerId == customer
  }

  predicate HasCustomer(t: Table, customer: string) {
    exists k :: k in t && t[k].stripeCustomerId == Some(customer)
  }

  /** `db.user.update({ where: { clerkId }, data: { role, stripeCustomerId,
      stripeSubscriptionId } })`. It throws when no row has that id, when another row holds
      the customer id, or on a database fault. */
  function UpdateBilling(t: Table, clerkId: string, role: string, customer: Option<string>,
                         subscription: Option<string>, fault: bool): (r: Option<Table>)
    ensures r.Some? <==> !fault && clerkId in t && !CustomerTaken(t, customer, clerkId)
    ensures r.Some? ==> r.value.Keys == t.Keys
  {
    if fault || clerkId !in t || CustomerTaken(t, customer, clerkId) then None
    else
      Some(t[clerkId := t[clerkId].(role := Some(role), stripeCustomerId := customer,
                                    stripeSubscriptionId := subscription)])
  }

  /** `db.user.update({ where: { stripeCustomerId: customer }, data: { role } })`. It
      throws when no row has that customer id, or on a database fault. */
  function UpdateRoleByCustomer(t: Table, customer: string, role: string, fault: bool): (r: Option<Table>)
    ensures r.Some? <==> !fault && HasCustomer(t, customer)
    ensures r.Some? ==> r.value.Keys == t.Keys
  {
    if fault || !HasCustomer(t, customer) then None
    else
      Some(map k | k in t :: if t[k].stripeCustomerId == Some(customer) then t[k].(role := Some(role)) else t[k])
  }

  /** `db.user.upsert({ where: { clerkId }, update: { email, username }, create: { clerkId,
      googleId, email, username } })`. It throws only on a database fault. */
  function Upsert(t: Table, clerkId: string, email: string, username: Option<string>,
                  googleId: Option<string>, fault: bool): (r: Option<Table>)
    ensures r.Some? <==> !fault
    ensures r.Some? ==> r.value.Keys == t.Keys + {clerkId}
  {
    if fault then None
    else if clerkId in t then Some(t[clerkId := t[clerkId].(email := email, username := username)])
    else Some(t[clerkId := User(clerkId, email, username, googleId, None, None, None)])
  }

  /** `db.user.delete({ where: { clerkId } })`. It throws when no row has that id, or on a
      database fault. */
  function Delete(t: Table, clerkId: string, fault: bool): (r: Option<Table>)
    ensures r.Some? <==> !fault && clerkId in t
    ensures r.Some? ==> r.value.Keys == t.Keys - {clerkId}
  {
    if fault || clerkId !in t then None else Some(t - {clerkId})
  }

  // ---------------------------------------------------------------- what each call changes

  /** The billing update changes the one row named, in exactly the three columns written. */
  lemma UpdateBillingChangesOneRow(t: Table, clerkId: string, role: string, customer: Option<string>,
                                   subscription: Option<string>)
    requires ValidTable(t)
    requires UpdateBilling(t, clerkId, role, customer, subscription, false).Some?
    ensures var u := UpdateBilling(t, clerkId, role, customer, subscription, false).value;
      && ValidTable(u)
      && u[clerkId].role == Some(role) && u[clerkId].stripeCustomerId == customer
      && u[clerkId].stripeSubscriptionId == subscription
      && u[clerkId].email == t[clerkId].email && u[clerkId].username == t[clerkId].username
      && u[clerkId].googleId == t[clerkId].googleId
      && (forall k :: k in t && k != clerkId ==> u[k] == t[k])
  {
  }

  /** With unique customer ids, the role update by customer changes the role of exactly the
      one row holding that customer id, and nothing else. */
  lemma UpdateRoleByCustomerChangesOneRow(t: Table, customer: string, role: string)
    requires ValidTable(t)
    requires UpdateRoleByCustomer(t, customer, role, false).Some?
    ensures var u := UpdateRoleByCustomer(t, customer, role, false).value;
      ValidTable(u)
      && (exists k :: k in t && t[k].stripeCustomerId == Some(customer)
            && u == t[k := t[k].(role := Some(role))])
  {
    var u := UpdateRoleByCustomer(t, customer, role, false).value;
    var k :| k in t && t[k].stripeCustomerId == Some(customer);
    assert forall j :: j in t && j != k ==> t[j].stripeCustomerId != Some(customer);
    assert u == t[k := t[k].(role := Some(role))];
  }

  /** An update changes email and username only; a creation starts with no role and no
      billing data. The Google id is taken only when the row is created. */
  lemma UpsertEffect(t: Table, clerkId: string, email: string, username: Option<string>,
                     googleId: Option<string>)
    requires ValidTable(t)
    ensures var u := Upsert(t, clerkId, email, username, googleId, false).value;
      && ValidTable(u)
      && u[clerkId].email == email && u[clerkId].username == username
      && (clerkId in t ==> u[clerkId] == t[clerkId].(email := email, username := username))
      && (clerkId !in t ==> u[clerkId] == User(clerkId, email, username, googleId, None, None, None))
      && (forall k :: k in t && k != clerkId ==> u[k] == t[k])
  {
  }

  lemma DeleteEffect(t: Table, clerkId: string)
    requires ValidTable(t) && clerkId in t
    ensures var u := Delete(t, clerkId, false).value;
      ValidTable(u) && clerkId !in u && (forall k :: k in t && k != clerkId ==> u[k] == t[k])
  {
  }

  /** The database: the one table both webhooks share. */
  class UserDb {
    var users: Table

    ghost predicate Valid()
      reads this
    {
      ValidTable(users)
    }

    constructor (t: Table)
      requires ValidTable(t)
      ensures Valid() && users == t
    {
      users := t;
    }

    method Update(clerkId: string, role: string, customer: Option<string>,
                  subscription: Option<string>, fault: bool) returns (ok: bool)
      requires Valid()
      modifies this
      ensures Valid()
      ensures var r := UpdateBilling(old(users), clerkId, role, customer, subscription, fault);
        ok == r.Some? && users == (if ok then r.value else old(users))
    {
      var r := UpdateBilling(users, clerkId, role, customer, subscription, fault);
      ok := r.Some?;
      if ok {
        UpdateBillingChangesOneRow(users, clerkId, role, customer, subscription);
        users := r.value;
      }
    }

    method UpdateByCustomer(customer: string, role: string, fault: bool) returns (ok: bool)
      requires Valid()
      modifies this
      ensures Valid()
      ensures var r := UpdateRoleByCustomer(old(users), customer, role, fault);
        ok == r.Some? && users == (if ok then r.value else old(users))
    {
      var r := UpdateRoleByCustomer(users, customer, role, fault);
      ok := r.Some?;
      if ok {
        UpdateRoleByCustomerChangesOneRow(users, customer, role);
        users := r.value;
      }
    }

    method UpsertUser(clerkId: string, email: string, username: Option<string>,
                      googleId: Option<string>, fault: bool) returns (ok: bool)
      requires Valid()
      modifies this
      ensures Valid()
      ensures var r := Upsert(old(users), clerkId, email, username, googleId, fault);
        ok == r.Some? && users == (if ok then r.value else old(users))
    {
      var r := Upsert(users, clerkId, email, username, googleId, fault);
      ok := r.Some?;
      if ok {
        UpsertEffect(users, clerkId, email, username, googleId);
        users := r.value;
      }
    }

    method DeleteUser(clerkId: string, fault: bool) returns (ok: bool)
      requires Valid()
      modifies this
      ensures Valid()
      ensures var r := Delete(old(users), clerkId, fault);
        ok == r.Some? && users == (if ok then r.value else old(users))
    {
      var r := Delete(users, clerkId, fault);
      ok := r.Some?;
      if ok {
        DeleteEffect(users, clerkId);
        users := r.value;
      }
    }
  }
}
