/** Rows of the models that app/views.py and app/serializers.py use but whose
    definitions are not part of this model (they are not in app/models.py).
    Each record holds only the fields those views read or write, as they use
    them; no unique constraint is assumed for them beyond the primary key.
    The errors a view can end in are here too. */
module Entities {
  import opened Wrappers

  /** An address or a payment method: both carry an `is_default` flag that
      `perform_create` maintains the same way. */
  datatype DefaultableRow = DefaultableRow(id: nat, user: nat, isDefault: bool)

  datatype MacroPlan = MacroPlan(id: nat, user: nat, active: bool)

  datatype MealSubscription = MealSubscription(id: nat, user: nat)

  datatype WeeklyMealSelection = WeeklyMealSelection(id: nat, subscription: nat, weekStart: int, meal: nat, quantity: int)

  datatype MealBox = MealBox(id: nat, user: nat, weekStart: int, name: string)

  datatype MealBoxItem = MealBoxItem(id: nat, box: nat, meal: nat, quantity: int)

  /** A one-time password; times are seconds on the server clock. */
  datatype Otp = Otp(id: nat, user: nat, channel: string, destination: string, code: string, expiresAt: int, usedAt: Option<int>)

  datatype Subscription = Subscription(id: nat, user: nat, status: string, autoRenew: bool)

  datatype ChatThread = ChatThread(id: nat, participants: set<nat>)

  /** A chat message. The receiver column is spelt `reciever` throughout the
      source; it is unset when a thread has no other participant. */
  datatype ChatMessage = ChatMessage(id: nat, thread: nat, sender: nat, receiver: Option<nat>, text: string, readAt: Option<int>, createdAt: int)

  datatype WaterLog = WaterLog(id: nat, user: nat, date: int, amountMl: int)

  datatype HeartRateSample = HeartRateSample(id: nat, user: nat, ts: int, bpm: int)

  /** A cardio session, with the date part of its `started_at`. */
  datatype CardioSession = CardioSession(id: nat, user: nat, startedOn: int)

  /** The `auth_user` columns the account views read. */
  datatype Account = Account(id: nat, email: string)

  /** The verification flags of a profile. */
  datatype VerificationFlags = VerificationFlags(phoneVerified: bool, emailVerified: bool)

  /** How a view ends when it does not return its normal response:
      an HTTP 404 from `get_object` / `get_object_or_404`, an exception the
      view does not catch, or an error response it builds itself. */
  datatype ViewError =
    | NotFound
    | MultipleObjectsReturned
    | DoesNotExist
    | KeyError(key: string)
    | OverflowError
    | ValueError
    | ValidationError(message: string)
    | BadRequest(message: string)
}
