/**
 * The attendance controller of `AttendancePage`: which command a click
 * issues, when the button is disabled and what it reads, the cache
 * invalidation after a successful command, and the toast texts. The
 * eligibility flags come from the server's `today` reply, which may still be
 * missing (`todayData` undefined), in which case both flags read as false.
 */
module Attendance {
  import opened Common
  import opened Api
  import opened QueryCache

  /** How often today's status is polled, in milliseconds. */
  const RefetchIntervalMs := 30000

  /** The two attendance mutations. */
  datatype Transition = CheckInTransition | CheckOutTransition

  /** What a click on the action button starts. */
  datatype Command = Issue(transition: Transition) | NoCommand

  /** `todayData?.data.can_check_in`, falsy while no reply is there. */
  predicate CanCheckIn(today: Option<TodayData>) {
    today.Some? && today.value.canCheckIn
  }

  /** `todayData?.data.can_check_out`. */
  predicate CanCheckOut(today: Option<TodayData>) {
    today.Some? && today.value.canCheckOut
  }

  /**
   * `handleAttendance`: check-in takes precedence, check-out is issued only
   * when check-in is not allowed, and nothing is issued when neither is.
   */
  function HandleAttendance(today: Option<TodayData>): (c: Command)
    ensures c == Issue(CheckInTransition) <==> CanCheckIn(today)
    ensures c == Issue(CheckOutTransition) <==> !CanCheckIn(today) && CanCheckOut(today)
    ensures c == NoCommand <==> !CanCheckIn(today) && !CanCheckOut(today)
  {
    if CanCheckIn(today) then Issue(CheckInTransition)
    else if CanCheckOut(today) then Issue(CheckOutTransition)
    else NoCommand
  }

  /** The API call behind each mutation. */
  function CallOf(t: Transition): (c: Call)
    ensures c.CheckIn? <==> t == CheckInTransition
    ensures c.CheckOut? <==> t == CheckOutTransition
  {
    match t
    case CheckInTransition => CheckIn
    case CheckOutTransition => CheckOut
  }

  /** Whatever a click issues is a POST without body or query to its own endpoint. */
  lemma IssuedCallIsBarePost(today: Option<TodayData>)
    requires HandleAttendance(today).Issue?
    ensures MethodName(OptionsOf(CallOf(HandleAttendance(today).transition))) == "POST"
    ensures OptionsOf(CallOf(HandleAttendance(today).transition)).body.None?
    ensures EndpointOf(CallOf(HandleAttendance(today).transition)).query == []
  {
    EndpointTable(CallOf(HandleAttendance(today).transition));
  }

  /**
   * The button's `disabled` attribute: the button is enabled exactly when a
   * click would issue a command and neither mutation is pending.
   */
  function ButtonDisabled(today: Option<TodayData>, checkInPending: bool, checkOutPending: bool): (disabled: bool)
    ensures !disabled <==> HandleAttendance(today) != NoCommand && !checkInPending && !checkOutPending
  {
    (!CanCheckIn(today) && !CanCheckOut(today)) || checkInPending || checkOutPending
  }

  const PendingLabel := "Memproses..."
  const CheckInLabel := "Check-in"
  const CheckOutLabel := "Check-out"
  const DoneLabel := "Sudah Absen Hari Ini"

  /**
   * The button's text. It reads `Memproses...` exactly while a mutation is
   * pending; otherwise it names the command a click issues, or says that
   * attendance is done for today when there is none.
   */
  function ButtonLabel(today: Option<TodayData>, checkInPending: bool, checkOutPending: bool): (text: string)
    ensures text == PendingLabel <==> checkInPending || checkOutPending
    ensures !checkInPending && !checkOutPending ==>
      (text == CheckInLabel <==> HandleAttendance(today) == Issue(CheckInTransition)) &&
      (text == CheckOutLabel <==> HandleAttendance(today) == Issue(CheckOutTransition)) &&
      (text == DoneLabel <==> HandleAttendance(today) == NoCommand)
  {
    if checkInPending || checkOutPending then PendingLabel
    else if CanCheckIn(today) then CheckInLabel
    else if CanCheckOut(today) then CheckOutLabel
    else DoneLabel
  }

  /**
   * The button and its label agree: an enabled button names the command a
   * click issues; a pending mutation shows the pending label on a disabled
   * button; with nothing pending a disabled button says attendance is done.
   */
  lemma ButtonAgreesWithDispatch(today: Option<TodayData>, checkInPending: bool, checkOutPending: bool)
    ensures !ButtonDisabled(today, checkInPending, checkOutPending) ==>
      (ButtonLabel(today, checkInPending, checkOutPending) == CheckInLabel <==> HandleAttendance(today) == Issue(CheckInTransition)) &&
      (ButtonLabel(today, checkInPending, checkOutPending) == CheckOutLabel <==> HandleAttendance(today) == Issue(CheckOutTransition))
    ensures checkInPending || checkOutPending ==>
      ButtonDisabled(today, checkInPending, checkOutPending) && ButtonLabel(today, checkInPending, checkOutPending) == PendingLabel
    ensures ButtonDisabled(today, checkInPending, checkOutPending) && !checkInPending && !checkOutPending ==>
      ButtonLabel(today, checkInPending, checkOutPending) == DoneLabel
  {
  }

  const DefaultCheckInError := "Check-in gagal"
  const DefaultCheckOutError := "Check-out gagal"

  /** The error toast: the error's message, or the per-command default when it is empty. */
  function ErrorToast(t: Transition, e: Error): (msg: string)
    ensures Truthy(e.message) ==> msg == e.message
    ensures !Truthy(e.message) && t == CheckInTransition ==> msg == DefaultCheckInError
    ensures !Truthy(e.message) && t == CheckOutTransition ==> msg == DefaultCheckOutError
    ensures Truthy(msg)
  {
    OrElse(e.message, if t == CheckInTransition then DefaultCheckInError else DefaultCheckOutError)
  }

  /** The success toast names the command that succeeded. */
  function SuccessToast(t: Transition): (msg: string)
    ensures t == CheckInTransition ==> msg == "Check-in berhasil!"
    ensures t == CheckOutTransition ==> msg == "Check-out berhasil!"
  {
    if t == CheckInTransition then "Check-in berhasil!" else "Check-out berhasil!"
  }

  /**
   * The `onSuccess` handler of either mutation: today's status and every
   * summary query (any page, any dates) are marked stale; nothing else is.
   */
  method OnCommandSuccess(client: QueryClient, t: Transition) returns (toast: string)
    requires client.Valid()
    modifies client
    ensures client.Valid() && client.cached == old(client.cached)
    ensures client.stale == old(client.stale) + Matching(client.cached, TodayKey) + Matching(client.cached, SummaryKeyPrefix)
    ensures TodayKey in client.cached ==> TodayKey in client.stale
    ensures forall k :: k in client.cached && SummaryKeyPrefix <= k ==> k in client.stale
    ensures toast == SuccessToast(t)
  {
    client.InvalidateQueries(TodayKey);
    client.InvalidateQueries(SummaryKeyPrefix);
    toast := SuccessToast(t);
  }
}
