/** The account views of app/views.py that change tables: the
    `perform_create` of addresses, payment methods and macro plans,
    `send_otp`, `forgot_password`, `verify_otp`, and the subscription
    `pause` / `cancel` actions.

    The clock (`timezone.now()`) is the parameter `now`, in seconds; the
    random six-digit code is the parameter `code`. */
module AccountViews {
  import opened Wrappers
  import opened Tables
  import opened Entities

  // -------------------------------------------------- at most one default

  /** `.exclude(id=keep).update(is_default=False)` on the user's rows. */
  function ClearOtherDefaults(rows: seq<DefaultableRow>, user: nat, keep: nat): (r: seq<DefaultableRow>)
    ensures |r| == |rows|
    ensures forall i :: 0 <= i < |rows| ==> r[i].id == rows[i].id && r[i].user == rows[i].user
    ensures forall i :: 0 <= i < |rows| && (rows[i].user != user || rows[i].id == keep) ==> r[i] == rows[i]
    ensures forall i :: 0 <= i < |rows| && rows[i].user == user && rows[i].id != keep ==> !r[i].isDefault
  {
    seq(|rows|, i requires 0 <= i < |rows| =>
      if rows[i].user == user && rows[i].id != keep then rows[i].(isDefault := false) else rows[i])
  }

  /** `serializer.save(user=...)` followed, for a default row, by clearing the
      flag on every other row of the same user. */
  function CreateDefaultable(rows: seq<DefaultableRow>, row: DefaultableRow): seq<DefaultableRow> {
    if row.isDefault then ClearOtherDefaults(rows + [row], row.user, row.id) else rows + [row]
  }

  /** Primary keys are drawn from a counter: every key is below it. */
  predicate IdsBelow(rows: seq<DefaultableRow>, n: nat) {
    forall i :: 0 <= i < |rows| ==> rows[i].id < n
  }

  ghost predicate AtMostOneDefault(rows: seq<DefaultableRow>, user: nat) {
    forall i, j :: 0 <= i < j < |rows| && rows[i].user == user && rows[j].user == user ==>
      !(rows[i].isDefault && rows[j].isDefault)
  }

  /** Creating a row keeps at most one default per user; a new default row is
      then the user's only default; and no other user's row changes. */
  lemma CreateKeepsOneDefault(rows: seq<DefaultableRow>, row: DefaultableRow, u: nat)
    requires IdsBelow(rows, row.id)
    requires AtMostOneDefault(rows, u)
    ensures AtMostOneDefault(CreateDefaultable(rows, row), u)
    ensures |CreateDefaultable(rows, row)| == |rows| + 1 && CreateDefaultable(rows, row)[|rows|] == row
    ensures row.isDefault ==> forall i :: 0 <= i < |rows| && rows[i].user == row.user ==> !CreateDefaultable(rows, row)[i].isDefault
    ensures forall i :: 0 <= i < |rows| && rows[i].user != row.user ==> CreateDefaultable(rows, row)[i] == rows[i]
  {
    var t := rows + [row];
    var r := CreateDefaultable(rows, row);
    assert forall i :: 0 <= i < |rows| ==> t[i] == rows[i];
    if row.isDefault {
      assert forall i :: 0 <= i < |rows| ==> t[i].id != row.id;
    }
  }

  // ------------------------------------------------- exactly one active plan

  function ActivePlanOf(user: nat): MacroPlan -> bool {
    (p: MacroPlan) => p.user == user && p.active
  }

  /** `MacroPlan.objects.filter(user=user, active=True).update(active=False)`. */
  function DeactivatePlans(rows: seq<MacroPlan>, user: nat): (r: seq<MacroPlan>)
    ensures |r| == |rows|
    ensures forall i :: 0 <= i < |rows| ==> r[i].id == rows[i].id && r[i].user == rows[i].user
    ensures forall i :: 0 <= i < |rows| && rows[i].user != user ==> r[i] == rows[i]
    ensures forall i :: 0 <= i < |rows| && rows[i].user == user ==> !r[i].active
  {
    seq(|rows|, i requires 0 <= i < |rows| =>
      if rows[i].user == user && rows[i].active then rows[i].(active := false) else rows[i])
  }

  function CreatePlan(rows: seq<MacroPlan>, user: nat, id: nat): seq<MacroPlan> {
    DeactivatePlans(rows, user) + [MacroPlan(id, user, true)]
  }

  /** After creating a plan the user has exactly one active plan, the new one,
      and the plans of other users are as they were. */
  lemma CreatePlanLeavesOneActive(rows: seq<MacroPlan>, user: nat, id: nat)
    ensures Filter(CreatePlan(rows, user, id), ActivePlanOf(user)) == [MacroPlan(id, user, true)]
    ensures Count(CreatePlan(rows, user, id), ActivePlanOf(user)) == 1
    ensures forall i :: 0 <= i < |rows| && rows[i].user != user ==> CreatePlan(rows, user, id)[i] == rows[i]
  {
    var d := DeactivatePlans(rows, user);
    var x := MacroPlan(id, user, true);
    FilterAppend(d, [x], ActivePlanOf(user));
    FilterNone(d, ActivePlanOf(user));
    FilterCons(x, [], ActivePlanOf(user));
    assert [x] + [] == [x];
    CountIsFilterLength(CreatePlan(rows, user, id), ActivePlanOf(user));
  }

  // ------------------------------------------------------------------ OTPs

  /** Ten minutes for a verification code, fifteen for a reset code. */
  const OtpLifetime := 600
  const ResetLifetime := 900

  /** `request.data.get('phone') or request.data.get('email')`: the phone when
      it is a non-empty string, the email otherwise. */
  function FirstGiven(phone: Option<string>, email: Option<string>): (r: Option<string>)
    ensures Truthy(phone) ==> r == phone
    ensures !Truthy(phone) ==> r == email
    ensures Truthy(r) <==> Truthy(phone) || Truthy(email)
  {
    if Truthy(phone) then phone else email
  }

  /** Python truthiness of an optional string. */
  predicate Truthy(s: Option<string>) {
    s.Some? && s.value != ""
  }

  predicate IsCode(code: string) {
    |code| == 6 && forall i :: 0 <= i < |code| ==> '0' <= code[i] <= '9'
  }

  function OtpFor(user: nat, destination: string): Otp -> bool {
    (o: Otp) => o.user == user && o.destination == destination
  }

  function OtpNotFor(user: nat, destination: string): Otp -> bool {
    (o: Otp) => !(o.user == user && o.destination == destination)
  }

  function EmailOtpOf(user: nat): Otp -> bool {
    (o: Otp) => o.user == user && o.channel == "email"
  }

  function NotEmailOtpOf(user: nat): Otp -> bool {
    (o: Otp) => !(o.user == user && o.channel == "email")
  }

  /** Keep the rows `keep` selects, delete the others, then create `o`. */
  function Replace(rows: seq<Otp>, keep: Otp -> bool, o: Otp): seq<Otp> {
    Filter(rows, keep) + [o]
  }

  /** Deleting the rows of a condition and creating one that meets it leaves
      exactly that row meeting it, and the others untouched. */
  lemma ReplaceLeavesOne(rows: seq<Otp>, drop: Otp -> bool, keep: Otp -> bool, o: Otp)
    requires forall x :: keep(x) <==> !drop(x)
    requires drop(o)
    ensures Filter(Replace(rows, keep, o), drop) == [o]
    ensures Filter(Replace(rows, keep, o), keep) == Filter(rows, keep)
  {
    var k := Filter(rows, keep);
    FilterAppend(k, [o], drop);
    FilterAppend(k, [o], keep);
    FilterNone(k, drop);
    FilterAll(k, keep);
    FilterCons(o, [], drop);
    FilterCons(o, [], keep);
    assert [o] + [] == [o];
  }

  /** After `send_otp` the user has one code for the destination. */
  lemma SendOtpLeavesOne(rows: seq<Otp>, o: Otp)
    ensures Filter(Replace(rows, OtpNotFor(o.user, o.destination), o), OtpFor(o.user, o.destination)) == [o]
    ensures Filter(Replace(rows, OtpNotFor(o.user, o.destination), o), OtpNotFor(o.user, o.destination))
         == Filter(rows, OtpNotFor(o.user, o.destination))
  {
    ReplaceLeavesOne(rows, OtpFor(o.user, o.destination), OtpNotFor(o.user, o.destination), o);
  }

  /** After `forgot_password` the user's only email-channel code is the new one. */
  lemma ForgotPasswordLeavesOne(rows: seq<Otp>, o: Otp)
    requires o.channel == "email"
    ensures Filter(Replace(rows, NotEmailOtpOf(o.user), o), EmailOtpOf(o.user)) == [o]
    ensures Filter(Replace(rows, NotEmailOtpOf(o.user), o), NotEmailOtpOf(o.user)) == Filter(rows, NotEmailOtpOf(o.user))
  {
    ReplaceLeavesOne(rows, EmailOtpOf(o.user), NotEmailOtpOf(o.user), o);
  }

  /** `OTP.objects.get(user=..., destination=..., code=...)`; an absent
      destination or code matches no row. */
  function OtpMatch(user: nat, destination: Option<string>, code: Option<string>): Otp -> bool {
    (o: Otp) => o.user == user && Some(o.destination) == destination && Some(o.code) == code
  }

  function AccountWith(email: Option<string>): Account -> bool {
    (a: Account) => Some(a.email) == email
  }

  /** A verified channel sets its flag: "phone" the phone flag, any other
      channel the email flag. No flag is ever cleared. */
  function MarkVerified(f: VerificationFlags, channel: string): (r: VerificationFlags)
    ensures channel == "phone" ==> r.phoneVerified && r.emailVerified == f.emailVerified
    ensures channel != "phone" ==> r.emailVerified && r.phoneVerified == f.phoneVerified
    ensures (f.phoneVerified ==> r.phoneVerified) && (f.emailVerified ==> r.emailVerified)
  {
    if channel == "phone" then f.(phoneVerified := true) else f.(emailVerified := true)
  }

  // ----------------------------------------------------------- subscriptions

  function SubscriptionOf(user: nat, pk: nat): Subscription -> bool {
    (s: Subscription) => s.user == user && s.id == pk
  }

  const Paused := "paused"
  const Canceled := "canceled"

  class AccountStore {
    var addresses: seq<DefaultableRow>
    var paymentMethods: seq<DefaultableRow>
    var macroPlans: seq<MacroPlan>
    var otps: seq<Otp>
    var accounts: seq<Account>
    var profiles: map<nat, VerificationFlags>
    var subscriptions: seq<Subscription>
    var nextId: nat

    ghost predicate Valid()
      reads this
    {
      IdsBelow(addresses, nextId) && IdsBelow(paymentMethods, nextId)
    }

    constructor ()
      ensures Valid()
      ensures addresses == [] && paymentMethods == [] && macroPlans == [] && otps == []
      ensures accounts == [] && profiles == map[] && subscriptions == []
    {
      addresses, paymentMethods, macroPlans, otps := [], [], [], [];
      accounts, profiles, subscriptions := [], map[], [];
      nextId := 1;
    }

    /** `AddressViewSet.perform_create`. */
    method CreateAddress(user: nat, isDefault: bool) returns (id: nat)
      requires Valid()
      modifies this`addresses, this`nextId
      ensures Valid()
      ensures id == old(nextId) && nextId == old(nextId) + 1
      ensures addresses == CreateDefaultable(old(addresses), DefaultableRow(id, user, isDefault))
    {
      id := nextId;
      var row := DefaultableRow(id, user, isDefault);
      addresses := addresses + [row];
      if row.isDefault {
        addresses := ClearOtherDefaults(addresses, user, id);
      }
      nextId := nextId + 1;
    }

    /** `PaymentMethodViewSet.perform_create`: the same rule as addresses. */
    method CreatePaymentMethod(user: nat, isDefault: bool) returns (id: nat)
      requires Valid()
      modifies this`paymentMethods, this`nextId
      ensures Valid()
      ensures id == old(nextId) && nextId == old(nextId) + 1
      ensures paymentMethods == CreateDefaultable(old(paymentMethods), DefaultableRow(id, user, isDefault))
    {
      id := nextId;
      var row := DefaultableRow(id, user, isDefault);
      paymentMethods := paymentMethods + [row];
      if row.isDefault {
        paymentMethods := ClearOtherDefaults(paymentMethods, user, id);
      }
      nextId := nextId + 1;
    }

    /** `MacroPlanViewSet.perform_create`: deactivate the user's active plans,
        then save the new plan as active. */
    method CreateMacroPlan(user: nat) returns (id: nat)
      modifies this`macroPlans, this`nextId
      ensures id == old(nextId) && nextId == old(nextId) + 1
      ensures macroPlans == CreatePlan(old(macroPlans), user, id)
    {
      id := nextId;
      macroPlans := DeactivatePlans(macroPlans, user);
      macroPlans := macroPlans + [MacroPlan(id, user, true)];
      nextId := nextId + 1;
    }

    /** `send_otp`: without a destination the request is refused; otherwise the
        user's codes for the destination are deleted and one is created on the
        channel given ("phone" by default), expiring ten minutes from now. */
    method SendOtp(user: nat, channel: Option<string>, phone: Option<string>, email: Option<string>, code: string, now: int)
      returns (r: Result<int, ViewError>)
      requires IsCode(code)
      modifies this`otps, this`nextId
      ensures !Truthy(FirstGiven(phone, email)) ==>
                (r == Err(BadRequest("Destination required")) && otps == old(otps) && nextId == old(nextId))
      ensures Truthy(FirstGiven(phone, email)) ==>
                (var o := Otp(old(nextId), user, if channel.Some? then channel.value else "phone",
                              FirstGiven(phone, email).value, code, now + OtpLifetime, None);
                 r == Ok(now + OtpLifetime) && nextId == old(nextId) + 1
                 && otps == Replace(old(otps), OtpNotFor(user, o.destination), o))
    {
      var destination := FirstGiven(phone, email);
      if !Truthy(destination) {
        return Err(BadRequest("Destination required"));
      }
      var expiresAt := now + OtpLifetime;
      otps := Filter(otps, OtpNotFor(user, destination.value));
      var ch := if channel.Some? then channel.value else "phone";
      otps := otps + [Otp(nextId, user, ch, destination.value, code, expiresAt, None)];
      nextId := nextId + 1;
      return Ok(expiresAt);
    }

    /** `forgot_password`: an unknown email changes nothing; a known one has the
        account's email-channel codes replaced by one expiring in fifteen
        minutes. Two accounts with the email make `get` fail. The result is
        the expiry, when a code was created. */
    method ForgotPassword(email: Option<string>, code: string, now: int) returns (r: Result<Option<int>, ViewError>)
      requires IsCode(code)
      modifies this`otps, this`nextId
      ensures Count(old(accounts), AccountWith(email)) == 0 ==>
                (r == Ok(None) && otps == old(otps) && nextId == old(nextId))
      ensures Count(old(accounts), AccountWith(email)) > 1 ==>
                (r == Err(MultipleObjectsReturned) && otps == old(otps) && nextId == old(nextId))
      ensures Count(old(accounts), AccountWith(email)) == 1 ==>
                (var a := old(accounts)[FirstIndex(old(accounts), AccountWith(email))];
                 var o := Otp(old(nextId), a.id, "email", email.value, code, now + ResetLifetime, None);
                 r == Ok(Some(now + ResetLifetime)) && nextId == old(nextId) + 1
                 && otps == Replace(old(otps), NotEmailOtpOf(a.id), o))
    {
      var n := Count(accounts, AccountWith(email));
      if n == 0 {
        return Ok(None);
      } else if n > 1 {
        return Err(MultipleObjectsReturned);
      }
      var a := accounts[FirstIndex(accounts, AccountWith(email))];
      var expiresAt := now + ResetLifetime;
      otps := Filter(otps, NotEmailOtpOf(a.id));
      otps := otps + [Otp(nextId, a.id, "email", email.value, code, expiresAt, None)];
      nextId := nextId + 1;
      return Ok(Some(expiresAt));
    }

    /** `verify_otp`: the code must match exactly one of the user's codes for
        the destination and be valid (`isValid` is `OTP.is_valid`); it is then
        marked used at `now` and the channel's flag is set on the profile. A
        user without a profile fails after the code was marked used. The
        result is the verified channel. */
    method VerifyOtp(user: nat, phone: Option<string>, email: Option<string>, code: Option<string>, now: int, isValid: Otp -> bool)
      returns (r: Result<string, ViewError>)
      modifies this`otps, this`profiles
      ensures var p := OtpMatch(user, FirstGiven(phone, email), code);
        Count(old(otps), p) == 0 ==> (r == Err(BadRequest("Invalid OTP")) && otps == old(otps) && profiles == old(profiles))
      ensures var p := OtpMatch(user, FirstGiven(phone, email), code);
        Count(old(otps), p) > 1 ==> (r == Err(MultipleObjectsReturned) && otps == old(otps) && profiles == old(profiles))
      ensures var p := OtpMatch(user, FirstGiven(phone, email), code);
        Count(old(otps), p) == 1 ==>
          (var k := FirstIndex(old(otps), p);
           var o := old(otps)[k];
           (!isValid(o) ==> r == Err(BadRequest("OTP expired or already used")) && otps == old(otps) && profiles == old(profiles))
           && (isValid(o) ==> otps == old(otps)[k := o.(usedAt := Some(now))])
           && (isValid(o) && user !in old(profiles) ==> r == Err(DoesNotExist) && profiles == old(profiles))
           && (isValid(o) && user in old(profiles) ==>
                 r == Ok(o.channel) && profiles == old(profiles)[user := MarkVerified(old(profiles)[user], o.channel)]))
    {
      var p := OtpMatch(user, FirstGiven(phone, email), code);
      var n := Count(otps, p);
      if n == 0 {
        return Err(BadRequest("Invalid OTP"));
      } else if n > 1 {
        return Err(MultipleObjectsReturned);
      }
      var k := FirstIndex(otps, p);
      var o := otps[k];
      if !isValid(o) {
        return Err(BadRequest("OTP expired or already used"));
      }
      otps := otps[k := o.(usedAt := Some(now))];
      if user !in profiles {
        return Err(DoesNotExist);
      }
      profiles := profiles[user := MarkVerified(profiles[user], o.channel)];
      return Ok(o.channel);
    }

    /** `SubscriptionViewSet.pause`: the user's subscription becomes "paused";
        nothing else changes. */
    method Pause(user: nat, pk: nat) returns (r: Result<(), ViewError>)
      modifies this`subscriptions
      ensures Count(old(subscriptions), SubscriptionOf(user, pk)) == 0 ==> (r == Err(NotFound) && subscriptions == old(subscriptions))
      ensures Count(old(subscriptions), SubscriptionOf(user, pk)) > 1 ==>
                (r == Err(MultipleObjectsReturned) && subscriptions == old(subscriptions))
      ensures Count(old(subscriptions), SubscriptionOf(user, pk)) == 1 ==>
                (var k := FirstIndex(old(subscriptions), SubscriptionOf(user, pk));
                 r == Ok(()) && subscriptions == old(subscriptions)[k := old(subscriptions)[k].(status := Paused)])
    {
      var n := Count(subscriptions, SubscriptionOf(user, pk));
      if n == 0 {
        return Err(NotFound);
      } else if n > 1 {
        return Err(MultipleObjectsReturned);
      }
      var k := FirstIndex(subscriptions, SubscriptionOf(user, pk));
      subscriptions := subscriptions[k := subscriptions[k].(status := Paused)];
      return Ok(());
    }

    /** `SubscriptionViewSet.cancel`: the user's subscription becomes
        "canceled" and stops renewing; nothing else changes. */
    method Cancel(user: nat, pk: nat) returns (r: Result<(), ViewError>)
      modifies this`subscriptions
      ensures Count(old(subscriptions), SubscriptionOf(user, pk)) == 0 ==> (r == Err(NotFound) && subscriptions == old(subscriptions))
      ensures Count(old(subscriptions), SubscriptionOf(user, pk)) > 1 ==>
                (r == Err(MultipleObjectsReturned) && subscriptions == old(subscriptions))
      ensures Count(old(subscriptions), SubscriptionOf(user, pk)) == 1 ==>
                (var k := FirstIndex(old(subscriptions), SubscriptionOf(user, pk));
                 r == Ok(()) && subscriptions == old(subscriptions)[k := old(subscriptions)[k].(status := Canceled, autoRenew := false)])
    {
      var n := Count(subscriptions, SubscriptionOf(user, pk));
      if n == 0 {
        return Err(NotFound);
      } else if n > 1 {
        return Err(MultipleObjectsReturned);
      }
      var k := FirstIndex(subscriptions, SubscriptionOf(user, pk));
      subscriptions := subscriptions[k := subscriptions[k].(status := Canceled, autoRenew := false)];
      return Ok(());
    }
  }
}
