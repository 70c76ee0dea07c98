/** `KanbanBoard`: the fixed task list split into four status columns, and the
    comment dialog's open/close state. */
module KanbanBoard {
  import opened Wrappers
  import opened Text
  import ProjectTypes
  import TaskCard

  datatype KanbanStatus = Todo | InProgress | Review | Completed

  datatype Task = Task(
    id: string,
    title: string,
    description: string,
    dueDate: Option<string>,
    priority: TaskCard.Priority,
    status: KanbanStatus,
    checklist: seq<TaskCard.ChecklistItem>,
    comments: seq<ProjectTypes.Comment>)

  /** `tasks.filter(task => task.status === status)`. */
  function Column(tasks: seq<Task>, status: KanbanStatus): (col: seq<Task>)
    ensures |col| <= |tasks|
    ensures forall k :: 0 <= k < |col| ==> col[k].status == status
  {
    if |tasks| == 0 then []
    else if tasks[0].status == status then [tasks[0]] + Column(tasks[1..], status)
    else Column(tasks[1..], status)
  }

  /** `a` is `b` with some elements dropped, the rest kept in order. */
  predicate IsSubsequence(a: seq<Task>, b: seq<Task>)
    decreases |b|
  {
    |a| == 0 || (|b| > 0 && (if a[0] == b[0] then IsSubsequence(a[1..], b[1..]) else IsSubsequence(a, b[1..])))
  }

  /** A task is in a column exactly when it is on the board with that status. */
  lemma {:induction false} ColumnMembership(tasks: seq<Task>, status: KanbanStatus, t: Task)
    ensures t in Column(tasks, status) <==> t in tasks && t.status == status
  {
    if |tasks| > 0 {
      ColumnMembership(tasks[1..], status, t);
      assert tasks == [tasks[0]] + tasks[1..];
    }
  }

  /** Each column keeps the relative order of the task list. */
  lemma {:induction false} ColumnKeepsOrder(tasks: seq<Task>, status: KanbanStatus)
    ensures IsSubsequence(Column(tasks, status), tasks)
  {
    if |tasks| > 0 {
      ColumnKeepsOrder(tasks[1..], status);
      var col := Column(tasks, status);
      if tasks[0].status == status {
        assert col[0] == tasks[0];
        assert col[1..] == Column(tasks[1..], status);
      } else if |col| > 0 {
        assert col[0] != tasks[0];
      }
    }
  }

  /** A column holds every copy of each task with its status, and nothing else. */
  lemma {:induction false} ColumnMultiplicity(tasks: seq<Task>, status: KanbanStatus, t: Task)
    ensures multiset(Column(tasks, status))[t] == if t.status == status then multiset(tasks)[t] else 0
  {
    if |tasks| > 0 {
      var rest := tasks[1..];
      ColumnMultiplicity(rest, status, t);
      assert tasks == [tasks[0]] + rest;
      if tasks[0].status == status {
        assert Column(tasks, status) == [tasks[0]] + Column(rest, status);
      }
    }
  }

  /** Every task lands in exactly one of the four columns: the columns together
      hold the board's tasks, each as often as it occurs. */
  lemma ColumnsPartition(tasks: seq<Task>)
    ensures multiset(Column(tasks, Todo)) + multiset(Column(tasks, InProgress))
          + multiset(Column(tasks, Review)) + multiset(Column(tasks, Completed)) == multiset(tasks)
  {
    var all := multiset(Column(tasks, Todo)) + multiset(Column(tasks, InProgress))
             + multiset(Column(tasks, Review)) + multiset(Column(tasks, Completed));
    forall t: Task
      ensures all[t] == multiset(tasks)[t]
    {
      ColumnMultiplicity(tasks, Todo, t);
      ColumnMultiplicity(tasks, InProgress, t);
      ColumnMultiplicity(tasks, Review, t);
      ColumnMultiplicity(tasks, Completed, t);
    }
  }

  /** The four column lengths add up to the number of tasks. */
  lemma ColumnLengthsSum(tasks: seq<Task>)
    ensures |Column(tasks, Todo)| + |Column(tasks, InProgress)| + |Column(tasks, Review)| + |Column(tasks, Completed)| == |tasks|
  {
    ColumnsPartition(tasks);
    assert |multiset(tasks)| == |tasks|;
  }

  // ---------------------------------------------------------------------
  // Column headers

  function ColumnTitle(status: KanbanStatus): string
  {
    match status
    case Todo => "A Fazer"
    case InProgress => "Em Andamento"
    case Review => "Revisão"
    case Completed => "Concluído"
  }

  /** `<h3>{title} ({column.length})</h3>`. */
  function ColumnHeader(tasks: seq<Task>, status: KanbanStatus): string
  {
    ColumnTitle(status) + " (" + NatToString(|Column(tasks, status)|) + ")"
  }

  /** Reads the count back out of a header, given its title. */
  function HeaderCount(header: string, title: string): Option<nat>
  {
    if |header| >= |title| + 3 && header[..|title| + 2] == title + " (" && header[|header| - 1] == ')'
    then ParseNat(header[|title| + 2..|header| - 1])
    else None
  }

  /** Each header shows exactly the length of its column. */
  lemma HeaderShowsCount(tasks: seq<Task>, status: KanbanStatus)
    ensures HeaderCount(ColumnHeader(tasks, status), ColumnTitle(status)) == Some(|Column(tasks, status)|)
  {
    var title := ColumnTitle(status);
    var digits := NatToString(|Column(tasks, status)|);
    var h := ColumnHeader(tasks, status);
    assert h == (title + " (") + digits + ")";
    assert h[..|title| + 2] == title + " (";
    assert h[|title| + 2..|h| - 1] == digits;
    ParseNatRoundTrip(|Column(tasks, status)|);
  }

  // ---------------------------------------------------------------------
  // The board's fixed tasks

  function Item(id: string, text: string, completed: bool): TaskCard.ChecklistItem
  {
    TaskCard.ChecklistItem(id, text, completed)
  }

  const MockTasks: seq<Task> := [
    Task("task1", "Levantamento de requisitos", "Reunir todas as informações necessárias para o projeto",
      Some("10/06/2025"), TaskCard.High, Completed,
      [Item("check1", "Entrevista com stakeholders", true),
       Item("check2", "Documentar requisitos funcionais", true),
       Item("check3", "Validar com o cliente", true)],
      [ProjectTypes.Comment("comment1", "João Silva", "05/06/2025",
        "Todos os requisitos foram documentados e validados pelo cliente.")]),
    Task("task2", "Design de interface", "Criação de wireframes e protótipos",
      Some("15/06/2025"), TaskCard.Medium, InProgress,
      [Item("check4", "Wireframes das páginas principais", true),
       Item("check5", "Protótipo de alta fidelidade", false),
       Item("check6", "Design system", false)],
      [ProjectTypes.Comment("comment2", "Maria Oliveira", "12/06/2025",
        "Os wireframes foram aprovados. Iniciando o protótipo de alta fidelidade.")]),
    Task("task3", "Desenvolvimento frontend", "Implementação da interface do usuário",
      Some("25/06/2025"), TaskCard.Medium, Todo,
      [Item("check7", "Configuração do ambiente", false),
       Item("check8", "Desenvolvimento de componentes", false),
       Item("check9", "Integração com API", false)],
      []),
    Task("task4", "Revisão de design", "Validação dos elementos visuais pelo cliente",
      Some("18/06/2025"), TaskCard.Low, Review,
      [Item("check10", "Apresentação para o cliente", true),
       Item("check11", "Coletar feedback", false),
       Item("check12", "Implementar ajustes", false)],
      [ProjectTypes.Comment("comment3", "Carlos Mendes", "17/06/2025",
        "Design apresentado ao cliente. Aguardando feedback final.")]),
    Task("task5", "Testes de usabilidade", "Avaliação da experiência do usuário",
      None, TaskCard.Low, Todo,
      [Item("check13", "Selecionar participantes", false),
       Item("check14", "Preparar roteiro de teste", false),
       Item("check15", "Realizar testes", false)],
      [])
  ]

  /** With the fixed tasks the board shows two cards to do and one in each other column. */
  lemma MockColumnSizes()
    ensures |Column(MockTasks, Todo)| == 2
    ensures |Column(MockTasks, InProgress)| == 1
    ensures |Column(MockTasks, Review)| == 1
    ensures |Column(MockTasks, Completed)| == 1
  {
    var t := MockTasks;
    assert t[0].status == Completed && t[1].status == InProgress && t[2].status == Todo
        && t[3].status == Review && t[4].status == Todo;
    StatusesDecideColumns(t);
  }

  /** Filtering a concatenation filters each part. */
  lemma {:induction false} ColumnOfConcat(a: seq<Task>, b: seq<Task>, status: KanbanStatus)
    ensures Column(a + b, status) == Column(a, status) + Column(b, status)
  {
    if |a| > 0 {
      ColumnOfConcat(a[1..], b, status);
      assert (a + b)[1..] == a[1..] + b;
    } else {
      assert a + b == b;
    }
  }

  /** The column sizes of a five-task board with these statuses, in this order. */
  lemma StatusesDecideColumns(t: seq<Task>)
    requires |t| == 5
    requires t[0].status == Completed && t[1].status == InProgress && t[2].status == Todo
    requires t[3].status == Review && t[4].status == Todo
    ensures |Column(t, Todo)| == 2 && |Column(t, InProgress)| == 1
    ensures |Column(t, Review)| == 1 && |Column(t, Completed)| == 1
  {
    assert t == [t[0]] + [t[1]] + [t[2]] + [t[3]] + [t[4]];
    forall s: KanbanStatus
      ensures Column(t, s) == Column([t[0]], s) + Column([t[1]], s) + Column([t[2]], s) + Column([t[3]], s) + Column([t[4]], s)
    {
      ColumnOfConcat([t[0]] + [t[1]] + [t[2]] + [t[3]], [t[4]], s);
      ColumnOfConcat([t[0]] + [t[1]] + [t[2]], [t[3]], s);
      ColumnOfConcat([t[0]] + [t[1]], [t[2]], s);
      ColumnOfConcat([t[0]], [t[1]], s);
    }
  }

  // ---------------------------------------------------------------------
  // The comment dialog

  class BoardState {
    var activeTask: Option<Task>
    var isCommentOpen: bool

    constructor ()
      ensures activeTask == None && !isCommentOpen
    {
      activeTask := None;
      isCommentOpen := false;
    }

    /** `handleOpenComments(task)`. */
    method OpenComments(task: Task)
      modifies this
      ensures activeTask == Some(task)
      ensures isCommentOpen
    {
      activeTask := Some(task);
      isCommentOpen := true;
    }

    /** `handleCloseComments()`: the dialog closes, the last task stays selected. */
    method CloseComments()
      modifies this
      ensures !isCommentOpen
      ensures activeTask == old(activeTask)
    {
      isCommentOpen := false;
    }
  }
}
