/**
 * The gateway's administrative API as the page uses it: the requests it
 * sends, the responses it may get back, and how each response is read.
 * Network I/O is not modelled; a call's outcome is an input value.
 */
module Gateway {
  import opened Wrappers
  import opened Text
  import opened Config

  /**
   * The outcome of one call: the call threw before a usable body was read
   * (network failure, or a body that is not JSON), with the error's message;
   * or a reply with its status, status text and the part of the body the page reads.
   */
  datatype Response<B> = Rejected(message: string) | Reply(status: nat, statusText: string, body: B)

  /** `response.ok`: a status in the 2xx range. */
  predicate IsOk(status: nat)
  {
    200 <= status < 300
  }

  /** The requests the page issues, each with the admin key as credential. */
  datatype Request =
    | GetUsers(userIds: string, page: nat, pageSize: nat)
      // GET {baseUrl}/user/get_users?user_ids=…&page=…&page_size=…
    | NewUser(maxBudget: int, userId: string, teamId: string)
      // POST {baseUrl}/user/new
    | GenerateKey(keyAlias: string, userId: string, teamId: string, budgetId: string)
      // POST {baseUrl}/key/generate

  /** The existence check for a user: the first page of 25 users filtered by the email. */
  function UserLookupRequest(userEmail: string): (r: Request)
    ensures r.GetUsers? && r.userIds == userEmail && r.page == 1 && r.pageSize == 25
  {
    GetUsers(userEmail, 1, 25)
  }

  /** The creation request: the configured per-user budget and team, and the email as user id. */
  function NewUserRequest(s: Settings, userEmail: string): (r: Request)
    ensures r.NewUser? && r.userId == userEmail && r.maxBudget == s.maxBudgetPerUser && r.teamId == s.teamId
  {
    NewUser(s.maxBudgetPerUser, userEmail, s.teamId)
  }

  /** The key request: the alias and user from the page state, the team and budget from the settings. */
  function KeyRequest(s: Settings, keyAlias: string, userId: string): (r: Request)
    ensures r.GenerateKey? && r.keyAlias == keyAlias && r.userId == userId
    ensures r.teamId == s.teamId && r.budgetId == s.budgetId
  {
    GenerateKey(keyAlias, userId, s.teamId, s.budgetId)
  }

  /**
   * Whether the user exists: only an ok reply whose `users` list is present
   * and non-empty says so; a failed call or any other reply means absent.
   * The body is the length of `users`, or `None` when the field is missing.
   */
  function CheckUserExists(response: Response<Option<nat>>): (found: bool)
    ensures found <==> response.Reply? && IsOk(response.status) && response.body.Some? && response.body.value > 0
  {
    match response
    case Rejected(_) => false
    case Reply(status, _, users) =>
      if !IsOk(status) then false
      else users.Some? && users.value > 0
  }

  /** Whether the user was created: only an ok reply with a readable body counts. */
  function CreateUser(response: Response<()>): (created: bool)
    ensures created <==> response.Reply? && IsOk(response.status)
  {
    match response
    case Rejected(_) => false
    case Reply(status, _, _) => IsOk(status)
  }
}
