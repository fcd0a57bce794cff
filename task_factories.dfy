/** Task descriptors and the two task factories of the struct-versus-class
    benchmark. A task stands for one unit of repeatable work (allocating arrays
    of, or passing as an argument, a type with a given number of fields); what
    the work does is not modelled, only which task it is. */
module TaskFactories {

  /** The data representation a task exercises. */
  datatype RepresentationKind = Class | Struct

  /** The experiment a task belongs to. */
  datatype ExperimentKind = ArrayCreation | MethodCall

  /** The four concrete task types, each built from a field count. */
  datatype Task =
    | ClassArrayCreationTask(fieldCount: int)
    | StructArrayCreationTask(fieldCount: int)
    | MethodCallWithClassArgumentTask(fieldCount: int)
    | MethodCallWithStructArgumentTask(fieldCount: int)
  {
    function Kind(): RepresentationKind {
      match this
      case ClassArrayCreationTask(_) => Class
      case MethodCallWithClassArgumentTask(_) => Class
      case StructArrayCreationTask(_) => Struct
      case MethodCallWithStructArgumentTask(_) => Struct
    }

    function Experiment(): ExperimentKind {
      match this
      case ClassArrayCreationTask(_) => ArrayCreation
      case StructArrayCreationTask(_) => ArrayCreation
      case MethodCallWithClassArgumentTask(_) => MethodCall
      case MethodCallWithStructArgumentTask(_) => MethodCall
    }
  }

  /** The task of experiment `e` on representation `k` over `n` fields:
      the reference against which the factories are specified. */
  function MakeTask(e: ExperimentKind, k: RepresentationKind, n: int): (t: Task)
    ensures t.Experiment() == e && t.Kind() == k && t.fieldCount == n
  {
    match (e, k)
    case (ArrayCreation, Class) => ClassArrayCreationTask(n)
    case (ArrayCreation, Struct) => StructArrayCreationTask(n)
    case (MethodCall, Class) => MethodCallWithClassArgumentTask(n)
    case (MethodCall, Struct) => MethodCallWithStructArgumentTask(n)
  }

  /** A task is nothing more than its experiment, its representation and its
      field count: MakeTask inverts the three observers. */
  lemma TaskDeterminedByParts(t: Task)
    ensures MakeTask(t.Experiment(), t.Kind(), t.fieldCount) == t
  {
    match t
    case ClassArrayCreationTask(_) =>
    case StructArrayCreationTask(_) =>
    case MethodCallWithClassArgumentTask(_) =>
    case MethodCallWithStructArgumentTask(_) =>
  }

  /** The two factories. Each hands out, for a field count, the class task and
      the struct task of its experiment, and names the experiment's chart. */
  datatype TaskFactory = ArrayCreationTaskFactory | MethodCallTaskFactory
  {
    function Experiment(): ExperimentKind {
      match this
      case ArrayCreationTaskFactory => ArrayCreation
      case MethodCallTaskFactory => MethodCall
    }

    function CreateClassTask(fieldCount: int): (t: Task)
      ensures t.Kind() == Class
      ensures t.Experiment() == Experiment()
      ensures t.fieldCount == fieldCount
    {
      match this
      case ArrayCreationTaskFactory => ClassArrayCreationTask(fieldCount)
      case MethodCallTaskFactory => MethodCallWithClassArgumentTask(fieldCount)
    }

    function CreateStructTask(fieldCount: int): (t: Task)
      ensures t.Kind() == Struct
      ensures t.Experiment() == Experiment()
      ensures t.fieldCount == fieldCount
    {
      match this
      case ArrayCreationTaskFactory => StructArrayCreationTask(fieldCount)
      case MethodCallTaskFactory => MethodCallWithStructArgumentTask(fieldCount)
    }

    function ChartTitle(): string {
      match this
      case ArrayCreationTaskFactory => "Array creation"
      case MethodCallTaskFactory => "Method call with argument"
    }
  }

  /** The class task and the struct task a factory builds for one field count
      are the reference tasks of its experiment, and differ in representation only. */
  lemma TaskPairDiffersOnlyInKind(factory: TaskFactory, fieldCount: int)
    ensures factory.CreateClassTask(fieldCount) == MakeTask(factory.Experiment(), Class, fieldCount)
    ensures factory.CreateStructTask(fieldCount) == MakeTask(factory.Experiment(), Struct, fieldCount)
    ensures factory.CreateClassTask(fieldCount) != factory.CreateStructTask(fieldCount)
  {
    TaskDeterminedByParts(factory.CreateClassTask(fieldCount));
    TaskDeterminedByParts(factory.CreateStructTask(fieldCount));
  }

  /** Each factory's chart title names its experiment: two factories share a
      title exactly when they are the same factory. */
  lemma ChartTitleIdentifiesFactory(f: TaskFactory, g: TaskFactory)
    ensures f.ChartTitle() == g.ChartTitle() <==> f == g
  {
    if f != g {
      assert |f.ChartTitle()| != |g.ChartTitle()|;
    }
  }
}
