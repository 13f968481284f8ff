/**
 * The friendly-error table: an API failure is classified, by status,
 * then by error code, then by keywords in its message, into one of a
 * fixed set of Vietnamese title/message/suggestion triples.
 */
module ErrorMessages {
  import opened Wrappers
  import opened Text

  /** The parts of an error value the classifier reads; an absent error is `NoError`. */
  datatype ApiData = ApiData(message: Option<string>, error: Option<string>)
  datatype Response = Response(status: Option<int>, data: Option<ApiData>)
  datatype ErrorValue = ErrorValue(
    response: Option<Response>,
    statusCode: Option<int>,
    message: Option<string>,
    code: Option<string>)

  const NoError := ErrorValue(None, None, None, None)

  datatype FriendlyError = FriendlyError(title: string, message: string, suggestion: Option<string>)

  datatype Kind =
    | INVALID_CREDENTIALS | ACCOUNT_NOT_FOUND | ACCOUNT_LOCKED | ACCOUNT_SUSPENDED | ACCOUNT_PENDING
    | EMAIL_ALREADY_EXISTS | WEAK_PASSWORD | NETWORK_ERROR | TIMEOUT_ERROR | SERVER_ERROR
    | UNAUTHORIZED | FORBIDDEN | INVALID_EMAIL | REQUIRED_FIELD | UNKNOWN_ERROR

  /** `ERROR_MESSAGES`: every entry has a title, a message and a suggestion. */
  function Entry(k: Kind): FriendlyError {
    FriendlyError(Title(k), Message(k), Some(Suggestion(k)))
  }

  /** The entries' titles. */
  function Title(k: Kind): string {
    match k
    case INVALID_CREDENTIALS => "Đăng nhập không thành công"
    case ACCOUNT_NOT_FOUND => "Tài khoản không tồn tại"
    case ACCOUNT_LOCKED => "Tài khoản bị khóa"
    case ACCOUNT_SUSPENDED => "Tài khoản bị tạm ngưng"
    case ACCOUNT_PENDING => "Tài khoản chưa được duyệt"
    case EMAIL_ALREADY_EXISTS => "Email đã được sử dụng"
    case WEAK_PASSWORD => "Mật khẩu không đủ mạnh"
    case NETWORK_ERROR => "Không có kết nối Internet"
    case TIMEOUT_ERROR => "Hết thời gian chờ"
    case SERVER_ERROR => "Lỗi hệ thống"
    case UNAUTHORIZED => "Chưa đăng nhập"
    case FORBIDDEN => "Không có quyền truy cập"
    case INVALID_EMAIL => "Email không hợp lệ"
    case REQUIRED_FIELD => "Thiếu thông tin bắt buộc"
    case UNKNOWN_ERROR => "Đã xảy ra lỗi"
  }

  /** The entries' messages. */
  function Message(k: Kind): string {
    match k
    case INVALID_CREDENTIALS => "Email hoặc mật khẩu không đúng"
    case ACCOUNT_NOT_FOUND => "Email này chưa được đăng ký trong hệ thống"
    case ACCOUNT_LOCKED => "Tài khoản của bạn đã bị khóa tạm thời"
    case ACCOUNT_SUSPENDED => "Tài khoản của bạn đã bị tạm ngưng hoạt động"
    case ACCOUNT_PENDING => "Yêu cầu đăng ký của bạn đang chờ được duyệt"
    case EMAIL_ALREADY_EXISTS => "Email này đã được đăng ký trong hệ thống"
    case WEAK_PASSWORD => "Mật khẩu cần tối thiểu 8 ký tự, bao gồm chữ hoa, chữ thường và số"
    case NETWORK_ERROR => "Không thể kết nối đến máy chủ"
    case TIMEOUT_ERROR => "Máy chủ không phản hồi trong thời gian quy định"
    case SERVER_ERROR => "Hệ thống đang gặp sự cố tạm thời"
    case UNAUTHORIZED => "Bạn cần đăng nhập để thực hiện thao tác này"
    case FORBIDDEN => "Bạn không có quyền thực hiện thao tác này"
    case INVALID_EMAIL => "Định dạng email không đúng"
    case REQUIRED_FIELD => "Vui lòng điền đầy đủ thông tin"
    case UNKNOWN_ERROR => "Đã có lỗi không xác định xảy ra"
  }

  /** The entries' suggestions. */
  function Suggestion(k: Kind): string {
    match k
    case INVALID_CREDENTIALS => "Vui lòng kiểm tra lại thông tin đăng nhập của bạn"
    case ACCOUNT_NOT_FOUND => "Vui lòng kiểm tra lại email hoặc đăng ký tài khoản mới"
    case ACCOUNT_LOCKED => "Vui lòng liên hệ quản trị viên để được hỗ trợ"
    case ACCOUNT_SUSPENDED => "Vui lòng liên hệ quản trị viên để biết thêm chi tiết"
    case ACCOUNT_PENDING => "Bạn sẽ nhận được email thông báo khi tài khoản được kích hoạt"
    case EMAIL_ALREADY_EXISTS => "Vui lòng sử dụng email khác hoặc đăng nhập nếu đây là tài khoản của bạn"
    case WEAK_PASSWORD => "Vui lòng chọn mật khẩu mạnh hơn để bảo vệ tài khoản của bạn"
    case NETWORK_ERROR => "Vui lòng kiểm tra kết nối Internet của bạn và thử lại"
    case TIMEOUT_ERROR => "Vui lòng thử lại sau vài phút"
    case SERVER_ERROR => "Chúng tôi đang khắc phục. Vui lòng thử lại sau ít phút"
    case UNAUTHORIZED => "Vui lòng đăng nhập lại"
    case FORBIDDEN => "Vui lòng liên hệ quản trị viên nếu bạn cần quyền truy cập"
    case INVALID_EMAIL => "Vui lòng nhập email theo định dạng: example@email.com"
    case REQUIRED_FIELD => "Các trường có dấu (*) là bắt buộc"
    case UNKNOWN_ERROR => "Vui lòng thử lại hoặc liên hệ hỗ trợ nếu lỗi vẫn tiếp diễn"
  }

  // ---------------------------------------------------------------------
  // the inputs, with JavaScript's `||` on falsy values

  /** `error?.response?.status || error?.statusCode`: a zero status counts as absent. */
  function Status(e: ErrorValue): (r: Option<int>)
    ensures e.response.Some? && e.response.value.status.Some? && e.response.value.status.value != 0
      ==> r == e.response.value.status
    ensures (e.response.None? || e.response.value.status.None? || e.response.value.status == Some(0))
      ==> r == e.statusCode
  {
    if e.response.Some? && e.response.value.status.Some? && e.response.value.status.value != 0
    then e.response.value.status else e.statusCode
  }

  function DataOf(e: ErrorValue): Option<ApiData> {
    if e.response.Some? then e.response.value.data else None
  }

  /** A string that is present and non-empty, i.e. truthy. */
  predicate Truthy(s: Option<string>) { s.Some? && s.value != "" }

  /** `error?.response?.data?.message || error?.message || ''`. */
  function ApiMessage(e: ErrorValue): (r: string)
    ensures DataOf(e).Some? && Truthy(DataOf(e).value.message) ==> r == DataOf(e).value.message.value
    ensures !(DataOf(e).Some? && Truthy(DataOf(e).value.message)) && Truthy(e.message) ==> r == e.message.value
    ensures r == "" <==> !(DataOf(e).Some? && Truthy(DataOf(e).value.message)) && !Truthy(e.message)
  {
    var data := DataOf(e);
    if data.Some? && Truthy(data.value.message) then data.value.message.value
    else if Truthy(e.message) then e.message.value
    else ""
  }

  /** `error?.response?.data?.error || ''`. */
  function ApiError(e: ErrorValue): string {
    var data := DataOf(e);
    if data.Some? && Truthy(data.value.error) then data.value.error.value else ""
  }

  // ---------------------------------------------------------------------
  // the three stages of the classifier

  /** The status rules; `None` when they decide nothing and the later rules apply. */
  function ByStatus(status: Option<int>, lower: string): Option<Kind> {
    if status == Some(401) then
      if Contains(lower, "invalid") || Contains(lower, "wrong") || Contains(lower, "incorrect")
      then Some(INVALID_CREDENTIALS) else Some(UNAUTHORIZED)
    else if status == Some(403) then
      if Contains(lower, "suspended") then Some(ACCOUNT_SUSPENDED)
      else if Contains(lower, "locked") then Some(ACCOUNT_LOCKED)
      else if Contains(lower, "pending") then Some(ACCOUNT_PENDING)
      else Some(FORBIDDEN)
    else if status == Some(404) then Some(ACCOUNT_NOT_FOUND)
    else if status == Some(409) && Contains(lower, "email") then Some(EMAIL_ALREADY_EXISTS)
    else if status == Some(422) || status == Some(400) then
      if Contains(lower, "email") then Some(INVALID_EMAIL)
      else if Contains(lower, "password") then Some(WEAK_PASSWORD)
      else Some(REQUIRED_FIELD)
    else if status == Some(500) || status == Some(502) || status == Some(503) then Some(SERVER_ERROR)
    else None
  }

  /** The error-code rules. */
  function ByCode(code: Option<string>, apiError: string, status: Option<int>): Option<Kind> {
    if code == Some("ECONNABORTED") || apiError == "TIMEOUT" then Some(TIMEOUT_ERROR)
    else if code == Some("ERR_NETWORK") || apiError == "NETWORK_ERROR" || status == Some(0) then Some(NETWORK_ERROR)
    else None
  }

  /** The keyword rules over the lower-cased message. */
  function ByKeyword(lower: string): Option<Kind> {
    if Contains(lower, "invalid credential") || Contains(lower, "wrong password") || Contains(lower, "incorrect password")
    then Some(INVALID_CREDENTIALS)
    else if Contains(lower, "not found") || Contains(lower, "does not exist") then Some(ACCOUNT_NOT_FOUND)
    else if Contains(lower, "already exists") || Contains(lower, "already registered") then Some(EMAIL_ALREADY_EXISTS)
    else if Contains(lower, "suspended") then Some(ACCOUNT_SUSPENDED)
    else if Contains(lower, "locked") || Contains(lower, "blocked") then Some(ACCOUNT_LOCKED)
    else if Contains(lower, "pending") || Contains(lower, "awaiting approval") then Some(ACCOUNT_PENDING)
    else if Contains(lower, "network") || Contains(lower, "connection") then Some(NETWORK_ERROR)
    else None
  }

  /** The entry `getFriendlyError` picks: the first stage that decides. */
  function Classify(e: ErrorValue): Kind {
    var status := Status(e);
    var lower := Lower(ApiMessage(e));
    match ByStatus(status, lower)
    case Some(k) => k
    case None =>
      match ByCode(e.code, ApiError(e), status)
      case Some(k) => k
      case None =>
        match ByKeyword(lower)
        case Some(k) => k
        case None => UNKNOWN_ERROR
  }

  /** `getFriendlyError(error)`. */
  function GetFriendlyError(e: ErrorValue): (r: FriendlyError)
    ensures r.suggestion == Entry(Classify(e)).suggestion
    ensures Classify(e) != UNKNOWN_ERROR ==> r == Entry(Classify(e))
    ensures Classify(e) == UNKNOWN_ERROR ==>
      r.title == Entry(UNKNOWN_ERROR).title && r.suggestion == Entry(UNKNOWN_ERROR).suggestion
      && r.message == (if ApiMessage(e) != "" then ApiMessage(e) else Entry(UNKNOWN_ERROR).message)
  {
    var k := Classify(e);
    if k == UNKNOWN_ERROR then
      var m := ApiMessage(e);
      Entry(UNKNOWN_ERROR).(message := if m != "" then m else Entry(UNKNOWN_ERROR).message)
    else Entry(k)
  }

  // ---------------------------------------------------------------------
  // what the classifier promises

  /** 401 is a credentials failure when the message says so, otherwise "not signed in". */
  lemma Unauthorized(e: ErrorValue)
    requires Status(e) == Some(401)
    ensures var m := Lower(ApiMessage(e));
      Classify(e) == (if Contains(m, "invalid") || Contains(m, "wrong") || Contains(m, "incorrect")
                      then INVALID_CREDENTIALS else UNAUTHORIZED)
  {
  }

  /** 403 tries suspended, then locked, then pending, else forbidden. */
  lemma Forbidden(e: ErrorValue)
    requires Status(e) == Some(403)
    ensures var m := Lower(ApiMessage(e));
      Classify(e) == (if Contains(m, "suspended") then ACCOUNT_SUSPENDED
                      else if Contains(m, "locked") then ACCOUNT_LOCKED
                      else if Contains(m, "pending") then ACCOUNT_PENDING
                      else FORBIDDEN)
  {
  }

  /** 404 is always "account not found"; 409 without "email" in the message falls through to the later rules. */
  lemma NotFoundAndConflict(e: ErrorValue)
    ensures Status(e) == Some(404) ==> Classify(e) == ACCOUNT_NOT_FOUND
    ensures Status(e) == Some(409) && Contains(Lower(ApiMessage(e)), "email") ==> Classify(e) == EMAIL_ALREADY_EXISTS
    ensures Status(e) == Some(409) && !Contains(Lower(ApiMessage(e)), "email") ==>
      Classify(e) == (match ByKeyword(Lower(ApiMessage(e))) case Some(k) => k case None => UNKNOWN_ERROR)
        || ByCode(e.code, ApiError(e), Status(e)).Some?
  {
  }

  /** Validation statuses try email, then password, else "required field"; 5xx is a server error. */
  lemma ValidationAndServer(e: ErrorValue)
    ensures Status(e) in {Some(400), Some(422)} ==>
      var m := Lower(ApiMessage(e));
      Classify(e) == (if Contains(m, "email") then INVALID_EMAIL
                      else if Contains(m, "password") then WEAK_PASSWORD else REQUIRED_FIELD)
    ensures Status(e) in {Some(500), Some(502), Some(503)} ==> Classify(e) == SERVER_ERROR
  {
  }

  /** The statuses the first stage handles. */
  predicate HandledStatus(status: Option<int>) {
    status in {Some(401), Some(403), Some(404), Some(400), Some(422), Some(500), Some(502), Some(503)}
  }

  /** Outside the handled statuses, a timeout code wins over a network code, and a status of 0 is a network error. */
  lemma CodesAfterStatus(e: ErrorValue)
    requires !HandledStatus(Status(e)) && Status(e) != Some(409)
    ensures e.code == Some("ECONNABORTED") || ApiError(e) == "TIMEOUT" ==> Classify(e) == TIMEOUT_ERROR
    ensures !(e.code == Some("ECONNABORTED") || ApiError(e) == "TIMEOUT")
      && (e.code == Some("ERR_NETWORK") || ApiError(e) == "NETWORK_ERROR" || Status(e) == Some(0))
      ==> Classify(e) == NETWORK_ERROR
  {
  }

  /** The unknown entry is reached only when no status, code or keyword rule applies. */
  lemma UnknownOnlyWhenNothingMatches(e: ErrorValue)
    ensures Classify(e) == UNKNOWN_ERROR <==>
      ByStatus(Status(e), Lower(ApiMessage(e))).None? && ByCode(e.code, ApiError(e), Status(e)).None?
      && ByKeyword(Lower(ApiMessage(e))).None?
    ensures Classify(e) == UNKNOWN_ERROR ==> !HandledStatus(Status(e)) && Status(e) != Some(0)
  {
  }

  // ---------------------------------------------------------------------
  // formatting

  datatype Toast = Toast(title: string, message: string)

  /** A toast: the message, then the suggestion after ". " when there is one. */
  function ToastOf(f: FriendlyError): Toast {
    Toast(f.title, if Truthy(f.suggestion) then f.message + ". " + f.suggestion.value else f.message)
  }

  /** The inline text: the message, then the suggestion on a line of its own when there is one. */
  function InlineOf(f: FriendlyError): string {
    if Truthy(f.suggestion) then f.message + "\n💡 " + f.suggestion.value else f.message
  }

  /** `formatErrorForToast(error)`. */
  function FormatErrorForToast(e: ErrorValue): Toast {
    ToastOf(GetFriendlyError(e))
  }

  /** `formatErrorForInline(error)`. */
  function FormatErrorForInline(e: ErrorValue): string {
    InlineOf(GetFriendlyError(e))
  }

  /** With a suggestion, both formats begin with the message and end with the suggestion. */
  lemma FormatsWithSuggestion(f: FriendlyError)
    requires Truthy(f.suggestion)
    ensures ToastOf(f) == Toast(f.title, f.message + ". " + f.suggestion.value)
    ensures InlineOf(f) == f.message + "\n💡 " + f.suggestion.value
    ensures StartsWith(InlineOf(f), f.message) && StartsWith(ToastOf(f).message, f.message)
    ensures EndsWith(InlineOf(f), f.suggestion.value) && EndsWith(ToastOf(f).message, f.suggestion.value)
  {
    var t := f.message + ". " + f.suggestion.value;
    var i := f.message + "\n💡 " + f.suggestion.value;
    assert t[..|f.message|] == f.message && t[|t| - |f.suggestion.value|..] == f.suggestion.value;
    assert i[..|f.message|] == f.message && i[|i| - |f.suggestion.value|..] == f.suggestion.value;
  }

  /** Every entry has a suggestion, so both formats always append it after the friendly message. */
  lemma FormatsAppendSuggestion(e: ErrorValue)
    ensures GetFriendlyError(e).suggestion.Some?
    ensures var f := GetFriendlyError(e);
      FormatErrorForToast(e) == Toast(f.title, f.message + ". " + f.suggestion.value)
    ensures var f := GetFriendlyError(e);
      FormatErrorForInline(e) == f.message + "\n💡 " + f.suggestion.value
  {
    EntrySuggestions(Classify(e));
    FormatsWithSuggestion(GetFriendlyError(e));
  }

  /** No suggestion in the table is empty. */
  lemma EntrySuggestions(k: Kind)
    ensures Truthy(Entry(k).suggestion)
  {
    SuggestionNonEmpty(k);
  }

  /** The fifteen suggestions, five at a time. */
  lemma SuggestionNonEmpty(k: Kind)
    ensures |Suggestion(k)| > 0
  {
    if k == INVALID_CREDENTIALS || k == ACCOUNT_NOT_FOUND || k == ACCOUNT_LOCKED || k == ACCOUNT_SUSPENDED || k == ACCOUNT_PENDING {
      SuggestionsNonEmpty1(k);
    } else if k == EMAIL_ALREADY_EXISTS || k == WEAK_PASSWORD || k == NETWORK_ERROR || k == TIMEOUT_ERROR || k == SERVER_ERROR {
      SuggestionsNonEmpty2(k);
    } else {
      SuggestionsNonEmpty3(k);
    }
  }

  lemma SuggestionsNonEmpty1(k: Kind)
    requires k == INVALID_CREDENTIALS || k == ACCOUNT_NOT_FOUND || k == ACCOUNT_LOCKED || k == ACCOUNT_SUSPENDED || k == ACCOUNT_PENDING
    ensures |Suggestion(k)| > 0
  {
  }

  lemma SuggestionsNonEmpty2(k: Kind)
    requires k == EMAIL_ALREADY_EXISTS || k == WEAK_PASSWORD || k == NETWORK_ERROR || k == TIMEOUT_ERROR || k == SERVER_ERROR
    ensures |Suggestion(k)| > 0
  {
  }

  lemma SuggestionsNonEmpty3(k: Kind)
    requires k == UNAUTHORIZED || k == FORBIDDEN || k == INVALID_EMAIL || k == REQUIRED_FIELD || k == UNKNOWN_ERROR
    ensures |Suggestion(k)| > 0
  {
  }
}
