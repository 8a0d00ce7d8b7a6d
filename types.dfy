/** The entities of the dashboard client (src/types/index.ts): the task,
    user, comment and notification records and their string enums. Each enum
    has the wire name the API uses. */
module Types {
  import opened Common

  datatype TaskStatus = Todo | InProgress | Review | Done {
    function Name(): string {
      match this
      case Todo => "todo"
      case InProgress => "in_progress"
      case Review => "review"
      case Done => "done"
    }
  }

  datatype TaskPriority = Low | Medium | High | Critical {
    function Name(): string {
      match this
      case Low => "low"
      case Medium => "medium"
      case High => "high"
      case Critical => "critical"
    }
  }

  datatype ProjectMemberRole = Owner | Admin | Member | Viewer {
    function Name(): string {
      match this
      case Owner => "owner"
      case Admin => "admin"
      case Member => "member"
      case Viewer => "viewer"
    }
  }

  datatype UserRole = UserAdmin | UserMember | UserViewer

  datatype User = User(
    id: string,
    email: string,
    name: string,
    role: UserRole,
    avatarUrl: Option<string>,
    createdAt: string,
    updatedAt: string)

  datatype Task = Task(
    id: string,
    projectId: string,
    title: string,
    description: string,
    status: TaskStatus,
    priority: TaskPriority,
    assigneeId: Option<string>,
    createdBy: string,
    dueDate: Option<string>,
    tags: seq<string>,
    createdAt: string,
    updatedAt: string)

  datatype Comment = Comment(
    id: string,
    taskId: string,
    authorId: string,
    body: string,
    createdAt: string,
    updatedAt: string)

  /** A notification as the list endpoint returns it. Its type is kept as the
      raw wire string, since the bell falls back on an unknown one. */
  datatype Notification = Notification(
    id: string,
    userId: string,
    kind: string,
    title: string,
    body: string,
    read: bool,
    createdAt: string)

  datatype AuthResponse = AuthResponse(token: string, user: User)

  /** Decodes a wire name; the inverse of TaskStatus.Name. */
  function ParseStatus(s: string): (r: Option<TaskStatus>)
    ensures r.Some? ==> r.value.Name() == s
  {
    if s == "todo" then Some(Todo)
    else if s == "in_progress" then Some(InProgress)
    else if s == "review" then Some(Review)
    else if s == "done" then Some(Done)
    else None
  }

  /** Every status round-trips through its wire name, so the names are distinct. */
  lemma StatusNameRoundTrip(st: TaskStatus)
    ensures ParseStatus(st.Name()) == Some(st)
  {
  }

  /** Decodes a wire name; the inverse of TaskPriority.Name. */
  function ParsePriority(s: string): (r: Option<TaskPriority>)
    ensures r.Some? ==> r.value.Name() == s
  {
    if s == "low" then Some(Low)
    else if s == "medium" then Some(Medium)
    else if s == "high" then Some(High)
    else if s == "critical" then Some(Critical)
    else None
  }

  lemma PriorityNameRoundTrip(p: TaskPriority)
    ensures ParsePriority(p.Name()) == Some(p)
  {
  }
}
