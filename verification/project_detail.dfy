/**
 The project detail panel: which sections a role sees, the values shown in
 them (with the `N/A` and zero fallbacks), the status badge colour, and the
 add-task form (its gating, the record it inserts, and its reset).
 */
module ProjectDetail {
  import opened Common
  import opened Auth

  /** A project row; money in integer cents, `null` columns as `None`. */
  datatype Project = Project(
    id: string,
    name: string,
    description: string,
    deliverables: string,
    startDate: string,
    deadline: string,
    status: string,
    clientName: Option<string>,
    clientEmail: Option<string>,
    clientPhone: Option<string>,
    totalAmount: Option<int>,
    amountPaid: Option<int>,
    outsourcedTo: Option<string>)

  datatype Stakeholder = Stakeholder(name: string, email: string, phone: string)

  datatype Budget = Budget(total: int, paid: int, balance: int)

  /** What the panel shows; a hidden section is `None`. */
  datatype PanelView = PanelView(
    title: string,
    statusClass: string,
    description: string,
    stakeholder: Option<Stakeholder>,
    budget: Option<Budget>,
    addTaskButton: bool)

  datatype TaskStatus = Todo | InProgress | Done

  datatype TaskForm = TaskForm(
    title: string,
    description: string,
    deadline: string,
    assignedTo: string,
    status: TaskStatus)

  /** The form's state: whether it is open, and its fields. */
  datatype FormState = FormState(showForm: bool, form: TaskForm)

  /** The row handed to `tasks.insert`. */
  datatype TaskInsert = TaskInsert(
    title: string,
    description: string,
    deadline: string,
    assignedTo: string,
    status: TaskStatus,
    projectId: string,
    createdBy: string)

  datatype AddTaskOutcome = AddTaskOutcome(
    insert: Option<TaskInsert>,
    next: FormState,
    toast: Option<Toast>,
    refetchTasks: bool)

  /** Which queries opening the panel starts. */
  datatype FetchPlan = FetchPlan(tasks: bool, members: bool)

  const NotAvailable: string := "N/A"
  const NoDescription: string := "No description provided"
  const EmptyForm: TaskForm := TaskForm("", "", "", "", Todo)

  const GreenClass: string := "bg-green-500/10 text-green-500 border-green-500/20"
  const BlueClass: string := "bg-blue-500/10 text-blue-500 border-blue-500/20"
  const GrayClass: string := "bg-gray-500/10 text-gray-500 border-gray-500/20"

  const KnownStatuses: set<string> := {"active", "ongoing", "completed", "todo", "in_progress", "done"}

  /** `showSensitiveInfo = !isOutsourced` */
  predicate ShowSensitiveInfo(role: Option<AppRole>) {
    role != Some(Outsourced)
  }

  /** Sensitive sections are hidden from `outsourced` only: admins, members,
      clients and a not-yet-resolved role all see them. */
  lemma SensitiveHiddenOnlyFromOutsourced(role: Option<AppRole>)
    ensures !ShowSensitiveInfo(role) <==> role == Some(Outsourced)
    ensures ShowSensitiveInfo(None) && ShowSensitiveInfo(Some(Admin))
    ensures ShowSensitiveInfo(Some(Member)) && ShowSensitiveInfo(Some(Client))
  {
  }

  /** `Number(total_amount || 0) - Number(amount_paid || 0)` */
  function Balance(p: Project): (b: int)
    ensures b + p.amountPaid.GetOr(0) == p.totalAmount.GetOr(0)
    ensures p.amountPaid.None? ==> b == p.totalAmount.GetOr(0)
    ensures p.totalAmount.None? && p.amountPaid.None? ==> b == 0
  {
    p.totalAmount.GetOr(0) - p.amountPaid.GetOr(0)
  }

  /** The badge class for a project or task status: green for `active` and
      `done`, blue for `ongoing` and `in_progress`, grey for `completed` and
      `todo`, and no class for anything else. */
  function StatusColor(status: string): (c: string)
    ensures c != "" <==> status in KnownStatuses
    ensures c == GreenClass <==> status == "active" || status == "done"
    ensures c == BlueClass <==> status == "ongoing" || status == "in_progress"
    ensures c == GrayClass <==> status == "completed" || status == "todo"
  {
    match status
    case "active" => GreenClass
    case "ongoing" => BlueClass
    case "completed" => GrayClass
    case "todo" => GrayClass
    case "in_progress" => BlueClass
    case "done" => GreenClass
    case _ => ""
  }

  /** The panel's content for a role; `None` when no project is selected. */
  function View(role: Option<AppRole>, project: Option<Project>): (v: Option<PanelView>)
    ensures v.Some? <==> project.Some?
    ensures v.Some? ==> var p := project.value;
      && v.value.title == p.name
      && v.value.statusClass == StatusColor(p.status)
      && (v.value.stakeholder.Some? <==> role != Some(Outsourced))
      && (v.value.budget.Some? <==> role != Some(Outsourced))
      && (v.value.stakeholder.Some? ==> v.value.stakeholder.value == StakeholderOf(p))
      && (v.value.budget.Some? ==> v.value.budget.value == BudgetOf(p))
      && (v.value.addTaskButton <==> role == Some(Admin))
      && (p.description == "" ==> v.value.description == NoDescription)
      && (p.description != "" ==> v.value.description == p.description)
  {
    match project
    case None => None
    case Some(p) =>
      var sensitive := ShowSensitiveInfo(role);
      Some(PanelView(
        p.name,
        StatusColor(p.status),
        if p.description != "" then p.description else NoDescription,
        if sensitive then Some(StakeholderOf(p)) else None,
        if sensitive then Some(BudgetOf(p)) else None,
        role == Some(Admin)))
  }

  /** Client contact details, `N/A` where missing or empty. */
  function StakeholderOf(p: Project): (s: Stakeholder)
    ensures Truthy(p.clientName) ==> s.name == p.clientName.value
    ensures !Truthy(p.clientName) ==> s.name == NotAvailable
    ensures Truthy(p.clientEmail) ==> s.email == p.clientEmail.value
    ensures !Truthy(p.clientEmail) ==> s.email == NotAvailable
    ensures Truthy(p.clientPhone) ==> s.phone == p.clientPhone.value
    ensures !Truthy(p.clientPhone) ==> s.phone == NotAvailable
  {
    Stakeholder(OrElse(p.clientName, NotAvailable), OrElse(p.clientEmail, NotAvailable),
                OrElse(p.clientPhone, NotAvailable))
  }

  /** Total, paid and balance, each missing amount counted as zero. */
  function BudgetOf(p: Project): (b: Budget)
    ensures b.total == p.totalAmount.GetOr(0) && b.paid == p.amountPaid.GetOr(0)
    ensures b.balance == b.total - b.paid
  {
    Budget(p.totalAmount.GetOr(0), p.amountPaid.GetOr(0), Balance(p))
  }

  /** Scenario: an outsourced viewer of a project with amounts and a client
      e-mail sees neither the stakeholder nor the budget section. */
  lemma OutsourcedRedaction(p: Project)
    ensures var v := View(Some(Outsourced), Some(p));
      v.Some? && v.value.stakeholder.None? && v.value.budget.None? && !v.value.addTaskButton
  {
  }

  /** Opening the panel on a project fetches its tasks, and the member list
      only for admins. */
  function PlanFetches(project: Option<Project>, open: bool, role: Option<AppRole>): (f: FetchPlan)
    ensures f.tasks <==> project.Some? && open
    ensures f.members <==> f.tasks && role == Some(Admin)
  {
    var load := project.Some? && open;
    FetchPlan(load, load && role == Some(Admin))
  }

  /** The add-task form is shown when it is open and the viewer is an admin. */
  predicate FormVisible(st: FormState, role: Option<AppRole>) {
    st.showForm && role == Some(Admin)
  }

  /** Only an admin ever sees the add-task button or the form, whatever
      state the form was left in. */
  lemma AddTaskAdminOnly(st: FormState, role: Option<AppRole>, p: Project)
    ensures FormVisible(st, role) ==> role == Some(Admin)
    ensures View(role, Some(p)).value.addTaskButton <==> role == Some(Admin)
    ensures role != Some(Admin) ==> !FormVisible(st, role) && !PlanFetches(Some(p), true, role).members
  {
  }

  /** The `Add Task` button flips the form open or closed. */
  function ToggleForm(st: FormState): (r: FormState)
    ensures r.showForm == !st.showForm && r.form == st.form
  {
    st.(showForm := !st.showForm)
  }

  /** The record `handleAddTask` inserts: the form's fields, the project and
      creator ids, and the assignee defaulting to the creator. */
  function InsertRecord(p: Project, u: User, form: TaskForm): (t: TaskInsert)
    ensures t.projectId == p.id && t.createdBy == u.id
    ensures form.assignedTo != "" ==> t.assignedTo == form.assignedTo
    ensures form.assignedTo == "" ==> t.assignedTo == u.id
    ensures t.assignedTo != "" || u.id == ""
    ensures t.title == form.title && t.description == form.description
    ensures t.deadline == form.deadline && t.status == form.status
  {
    TaskInsert(form.title, form.description, form.deadline,
               if form.assignedTo != "" then form.assignedTo else u.id,
               form.status, p.id, u.id)
  }

  /** `handleAddTask`: no project or no user does nothing; otherwise the
      insert is made, and `insertError` is its answer. On success the form
      closes and resets and the tasks are refetched; on error only a toast. */
  function AddTask(project: Option<Project>, user: Option<User>, st: FormState,
                   insertError: Option<string>): (o: AddTaskOutcome)
    ensures o.insert.Some? <==> project.Some? && user.Some?
    ensures o.insert.Some? ==> o.insert.value == InsertRecord(project.value, user.value, st.form)
    ensures o.insert.None? ==> o.next == st && o.toast.None? && !o.refetchTasks
    ensures o.insert.Some? && insertError.None? ==>
              o.next == FormState(false, EmptyForm) && o.refetchTasks
              && o.toast.Some? && !o.toast.value.destructive
    ensures o.insert.Some? && insertError.Some? ==>
              o.next == st && !o.refetchTasks
              && o.toast == Some(Toast("Error", insertError.value, true))
  {
    if project.None? || user.None? then AddTaskOutcome(None, st, None, false)
    else
      var record := InsertRecord(project.value, user.value, st.form);
      match insertError
      case None =>
        AddTaskOutcome(Some(record), FormState(false, EmptyForm),
                       Some(Toast("Success", "Task added successfully", false)), true)
      case Some(msg) =>
        AddTaskOutcome(Some(record), st, Some(Toast("Error", msg, true)), false)
  }

  /** `fetchTasks`: an error keeps the current list, a `null` answer empties it. */
  function TasksAfterFetch<T>(current: seq<T>, answer: Result<Option<seq<T>>>): (r: seq<T>)
    ensures answer.Err? ==> r == current
    ensures answer.Ok? ==> r == answer.value.GetOr([])
  {
    match answer
    case Err(_) => current
    case Ok(rows) => rows.GetOr([])
  }

  /** After a successful insert the form is closed and back at its empty
      state, so the next submission assigns to the creator with status
      `todo` unless the fields are filled in again. */
  lemma SuccessfulAddResetsForm(p: Project, u: User, st: FormState)
    ensures var o := AddTask(Some(p), Some(u), st, None);
      && o.next.form == EmptyForm && !o.next.showForm
      && !FormVisible(o.next, Some(Admin))
      && InsertRecord(p, u, o.next.form).assignedTo == u.id
      && InsertRecord(p, u, o.next.form).status == Todo
  {
  }
}
