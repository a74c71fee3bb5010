/** The schedule-task admin controller: the manual "run now" action with its
    outcome bookkeeping, the edit form's POST and GET actions, and the mapping
    of a stored task to the model the list and edit views show.

    The task store is a map from id to task record; the reflection-based
    lookup of the task's implementation is a map from the stored type name to
    a runtime type plus the sequence of registered task types; the clock and
    the outcome of Execute() are parameters. The object mapper, the time-zone
    conversion and the translation lookup are function-valued constants of
    the controller, of which nothing is assumed. */
module ScheduleTasks {
  import opened Common

  /** The durable record of one scheduled task. */
  datatype ScheduleTask = ScheduleTask(
    id: string,
    scheduleTaskName: string,
    typeName: string,
    enabled: bool,
    stopOnError: bool,
    timeInterval: int,
    storeId: string,
    lastStartUtc: Option<DateTime>,
    lastSuccessUtc: Option<DateTime>,
    lastNonSuccessEndUtc: Option<DateTime>)

  /** The model behind the list grid and the edit form. */
  datatype ScheduleTaskModel = ScheduleTaskModel(
    id: string,
    scheduleTaskName: string,
    typeName: string,
    enabled: bool,
    stopOnError: bool,
    timeInterval: int,
    storeId: string,
    lastStartUtc: Option<DateTime>,
    lastSuccessUtc: Option<DateTime>,
    lastEndUtc: Option<DateTime>,
    availableStores: seq<SelectListItem>)

  /** A runtime type: what Type.GetType returns for a stored type name, and
      what GetType() returns for a registered task implementation. */
  datatype ClrType = ClrType(assemblyQualifiedName: string, name: string)

  /** How the implementation's Execute() ended. */
  datatype Execution = Completed | Threw(message: string)

  /** The notifications the controller queues for the next page. */
  datatype Notification =
    | SuccessNotice(text: string)
    | ErrorNotice(text: string)
    | ExceptionNotice(message: string)   // Error(exception): the caught exception
    | ModelStateErrors                   // Error(ModelState): the form's validation errors

  datatype ActionResult = RedirectToList | EditView(model: ScheduleTaskModel)

  const RunNowDoneKey: string := "Admin.System.ScheduleTasks.RunNow.Done"
  const UpdatedKey: string := "Admin.System.ScheduleTasks.Updated"
  const SelectKey: string := "Admin.Common.Select"
  const CannotBeLoadedMessage: string := "Schedule task cannot be loaded"

  /** The error shown when no registered task has the resolved type; a type
      name that does not resolve interpolates as "". */
  function NotRegisteredMessage(typeName: Option<string>): string
  {
    "Task " + (if typeName.Some? then typeName.value else "") + " has not been registered"
  }

  function RunFailedMessage(taskName: string, message: string): string
  {
    "Error while running the " + taskName + " schedule task " + message
  }

  /** The two records differ at most in the three run timestamps. */
  predicate SameSettings(a: ScheduleTask, b: ScheduleTask)
  {
    && a.id == b.id
    && a.scheduleTaskName == b.scheduleTaskName
    && a.typeName == b.typeName
    && a.enabled == b.enabled
    && a.stopOnError == b.stopOnError
    && a.timeInterval == b.timeInterval
    && a.storeId == b.storeId
  }

  /** The bookkeeping of one manual run: the start time is recorded; a
      completed run records its end as the last success and clears the
      failure time; a run that threw records its end as the failure time and
      keeps the last success. */
  function RecordRun(task: ScheduleTask, execution: Execution, startUtc: DateTime, endUtc: DateTime): (t: ScheduleTask)
    ensures t.lastStartUtc == Some(startUtc)
    ensures execution.Completed? ==> t.lastSuccessUtc == Some(endUtc) && t.lastNonSuccessEndUtc == None
    ensures execution.Threw? ==> t.lastNonSuccessEndUtc == Some(endUtc) && t.lastSuccessUtc == task.lastSuccessUtc
    ensures SameSettings(t, task)
  {
    var started := task.(lastStartUtc := Some(startUtc));
    match execution
    case Completed => started.(lastSuccessUtc := Some(endUtc), lastNonSuccessEndUtc := None)
    case Threw(_) => started.(lastNonSuccessEndUtc := Some(endUtc))
  }

  /** The notifications of a run whose implementation was found: "Done" in
      both cases, followed by the error when Execute() threw. */
  function RunNotices(taskName: string, execution: Execution, done: string): (n: seq<Notification>)
    ensures |n| >= 1 && n[0] == SuccessNotice(done)
    ensures execution.Completed? <==> |n| == 1
    ensures execution.Threw? ==> n == [SuccessNotice(done), ErrorNotice(RunFailedMessage(taskName, execution.message))]
  {
    match execution
    case Completed => [SuccessNotice(done)]
    case Threw(message) => [SuccessNotice(done), ErrorNotice(RunFailedMessage(taskName, message))]
  }

  /** Type.GetType on the stored type name: None when it does not resolve. */
  function ResolveType(types: map<string, ClrType>, typeName: string): Option<ClrType>
  {
    if typeName in types then Some(types[typeName]) else None
  }

  /** Some registered task implementation has exactly the resolved type. */
  predicate IsRegistered(resolved: Option<ClrType>, services: seq<ClrType>)
  {
    resolved.Some? && resolved.value in services
  }

  /** The list/edit model of a stored task: the mapper's copy of the task,
      with the three run times converted to the user's time zone, the last
      failure time shown as the model's end time. */
  function PrepareScheduleTaskModel(task: ScheduleTask, mapToModel: ScheduleTask -> ScheduleTaskModel,
                                    toUserTime: DateTime -> DateTime): (m: ScheduleTaskModel)
    ensures m.lastStartUtc.Some? <==> task.lastStartUtc.Some?
    ensures m.lastSuccessUtc.Some? <==> task.lastSuccessUtc.Some?
    ensures m.lastEndUtc.Some? <==> task.lastNonSuccessEndUtc.Some?
    ensures task.lastStartUtc.Some? ==> m.lastStartUtc.value == toUserTime(task.lastStartUtc.value)
    ensures task.lastSuccessUtc.Some? ==> m.lastSuccessUtc.value == toUserTime(task.lastSuccessUtc.value)
    ensures task.lastNonSuccessEndUtc.Some? ==> m.lastEndUtc.value == toUserTime(task.lastNonSuccessEndUtc.value)
    ensures m.(lastStartUtc := mapToModel(task).lastStartUtc,
               lastSuccessUtc := mapToModel(task).lastSuccessUtc,
               lastEndUtc := mapToModel(task).lastEndUtc) == mapToModel(task)
  {
    mapToModel(task).(
      lastStartUtc := MapTime(task.lastStartUtc, toUserTime),
      lastSuccessUtc := MapTime(task.lastSuccessUtc, toUserTime),
      lastEndUtc := MapTime(task.lastNonSuccessEndUtc, toUserTime))
  }

  /** The store drop-down of the edit form: the model's existing entries,
      then a "Select" entry with an empty value, then every store in order. */
  function PrepareStores(model: ScheduleTaskModel, stores: seq<Store>, selectText: string): (m: ScheduleTaskModel)
    ensures m.(availableStores := model.availableStores) == model
    ensures |m.availableStores| == |model.availableStores| + 1 + |stores|
    ensures m.availableStores[..|model.availableStores|] == model.availableStores
    ensures m.availableStores[|model.availableStores|] == SelectListItem(selectText, "")
    ensures forall i :: 0 <= i < |stores| ==>
              m.availableStores[|model.availableStores| + 1 + i] == StoreItem(stores[i])
  {
    model.(availableStores := model.availableStores + [SelectListItem(selectText, "")] + StoreItems(stores))
  }

  /** A run of the manual trigger, for reasoning about several in a row. */
  datatype Run = Run(execution: Execution, startUtc: DateTime, endUtc: DateTime)

  /** The record after the given runs, applied first to last. */
  function RecordRuns(task: ScheduleTask, runs: seq<Run>): ScheduleTask
    decreases |runs|
  {
    if runs == [] then task
    else RecordRuns(RecordRun(task, runs[0].execution, runs[0].startUtc, runs[0].endUtc), runs[1..])
  }

  /** The end time of the most recent completed run, or `initial` when no run completed. */
  function LatestSuccess(initial: Option<DateTime>, runs: seq<Run>): Option<DateTime>
    decreases |runs|
  {
    if runs == [] then initial
    else if runs[|runs| - 1].execution.Completed? then Some(runs[|runs| - 1].endUtc)
    else LatestSuccess(initial, runs[..|runs| - 1])
  }

  lemma {:induction false} RecordRunsSnoc(task: ScheduleTask, runs: seq<Run>, last: Run)
    ensures RecordRuns(task, runs + [last])
         == RecordRun(RecordRuns(task, runs), last.execution, last.startUtc, last.endUtc)
    decreases |runs|
  {
    if runs == [] {
      assert [last][1..] == [];
    } else {
      var next := RecordRun(task, runs[0].execution, runs[0].startUtc, runs[0].endUtc);
      assert (runs + [last])[1..] == runs[1..] + [last];
      RecordRunsSnoc(next, runs[1..], last);
    }
  }

  /** After any series of manual runs: the settings are untouched, the last
      success is the end of the most recent completed run (or what it was
      before), the start is that of the latest run, and a failure time is
      present exactly when the latest run threw. */
  lemma {:induction false} RecordRunsHistory(task: ScheduleTask, runs: seq<Run>)
    ensures SameSettings(RecordRuns(task, runs), task)
    ensures RecordRuns(task, runs).lastSuccessUtc == LatestSuccess(task.lastSuccessUtc, runs)
    ensures runs != [] ==>
              && RecordRuns(task, runs).lastStartUtc == Some(runs[|runs| - 1].startUtc)
              && (RecordRuns(task, runs).lastNonSuccessEndUtc.Some? <==> runs[|runs| - 1].execution.Threw?)
              && (runs[|runs| - 1].execution.Threw? ==>
                    RecordRuns(task, runs).lastNonSuccessEndUtc == Some(runs[|runs| - 1].endUtc))
    decreases |runs|
  {
    if runs != [] {
      var init, last := runs[..|runs| - 1], runs[|runs| - 1];
      assert runs == init + [last];
      RecordRunsSnoc(task, init, last);
      RecordRunsHistory(task, init);
    }
  }

  /** The controller, with the task store and the logs of what it persisted
      and what it showed. */
  class ScheduleTaskController {
    /** The task store, by id. */
    var tasks: map<string, ScheduleTask>
    /** Every UpdateTask call, in order. */
    var updates: seq<ScheduleTask>
    /** The notifications queued by Success(...) and Error(...), in order. */
    var notifications: seq<Notification>

    /** Type.GetType: the runtime type a stored type name resolves to. */
    const types: map<string, ClrType>
    /** The runtime types of the registered task implementations, in service order. */
    const services: seq<ClrType>
    /** The store service's stores, in order. */
    const stores: seq<Store>
    /** The object mapper, task to model and model onto a (possibly null) task. */
    const mapToModel: ScheduleTask -> ScheduleTaskModel
    const mapOnto: (ScheduleTaskModel, Option<ScheduleTask>) -> ScheduleTask
    /** ConvertToUserTime and the translation lookup. */
    const toUserTime: DateTime -> DateTime
    const translate: string -> string

    ghost predicate Valid()
      reads this
    {
      forall id :: id in tasks ==> tasks[id].id == id
    }

    constructor (tasks: map<string, ScheduleTask>, types: map<string, ClrType>, services: seq<ClrType>,
                 stores: seq<Store>, mapToModel: ScheduleTask -> ScheduleTaskModel,
                 mapOnto: (ScheduleTaskModel, Option<ScheduleTask>) -> ScheduleTask,
                 toUserTime: DateTime -> DateTime, translate: string -> string)
      requires forall id :: id in tasks ==> tasks[id].id == id
      ensures Valid()
      ensures this.tasks == tasks && updates == [] && notifications == []
      ensures this.types == types && this.services == services && this.stores == stores
      ensures this.mapToModel == mapToModel && this.mapOnto == mapOnto
      ensures this.toUserTime == toUserTime && this.translate == translate
    {
      this.tasks := tasks;
      this.updates := [];
      this.notifications := [];
      this.types := types;
      this.services := services;
      this.stores := stores;
      this.mapToModel := mapToModel;
      this.mapOnto := mapOnto;
      this.toUserTime := toUserTime;
      this.translate := translate;
    }

    /** The store's update: replaces the record with the same id, if any, and
        is logged either way. */
    method UpdateTask(task: ScheduleTask)
      requires Valid()
      modifies this
      ensures Valid()
      ensures updates == old(updates) + [task]
      ensures tasks == if task.id in old(tasks) then old(tasks)[task.id := task] else old(tasks)
      ensures notifications == old(notifications)
    {
      updates := updates + [task];
      if task.id in tasks {
        tasks := tasks[task.id := task];
      }
    }

    /** The manual trigger. An unknown id reports "cannot be loaded"; a type
        with no registered implementation reports "has not been registered";
        in both cases nothing is written. Otherwise the task runs, its record
        gets the bookkeeping of RecordRun and is written exactly once, after
        the run, whatever its outcome. The action always redirects to the list. */
    method RunNow(id: string, execution: Execution, startUtc: DateTime, endUtc: DateTime) returns (r: ActionResult)
      requires Valid()
      modifies this
      ensures Valid()
      ensures r == RedirectToList
      ensures id !in old(tasks) ==>
                && tasks == old(tasks) && updates == old(updates)
                && notifications == old(notifications) + [ExceptionNotice(CannotBeLoadedMessage)]
      ensures id in old(tasks) && !IsRegistered(ResolveType(types, old(tasks)[id].typeName), services) ==>
                var resolved := ResolveType(types, old(tasks)[id].typeName);
                && tasks == old(tasks) && updates == old(updates)
                && notifications == old(notifications)
                     + [ErrorNotice(NotRegisteredMessage(if resolved.Some? then Some(resolved.value.name) else None))]
      ensures id in old(tasks) && IsRegistered(ResolveType(types, old(tasks)[id].typeName), services) ==>
                var ran := RecordRun(old(tasks)[id], execution, startUtc, endUtc);
                && tasks == old(tasks)[id := ran]
                && updates == old(updates) + [ran]
                && notifications == old(notifications)
                     + RunNotices(old(tasks)[id].scheduleTaskName, execution, translate(RunNowDoneKey))
    {
      r := RedirectToList;
      if id !in tasks {
        notifications := notifications + [ExceptionNotice(CannotBeLoadedMessage)];
        return;
      }
      var scheduleTask := tasks[id];
      var typeOfTask := ResolveType(types, scheduleTask.typeName);
      if typeOfTask.Some? && typeOfTask.value in services {
        scheduleTask := scheduleTask.(lastStartUtc := Some(startUtc));
        match execution {
          case Completed =>
            scheduleTask := scheduleTask.(lastSuccessUtc := Some(endUtc));
            scheduleTask := scheduleTask.(lastNonSuccessEndUtc := None);
            notifications := notifications + [SuccessNotice(translate(RunNowDoneKey))];
          case Threw(message) =>
            scheduleTask := scheduleTask.(lastNonSuccessEndUtc := Some(endUtc));
            notifications := notifications + [SuccessNotice(translate(RunNowDoneKey))];
            notifications := notifications + [ErrorNotice(RunFailedMessage(scheduleTask.scheduleTaskName, message))];
        }
        UpdateTask(scheduleTask);
      } else {
        var typeName := if typeOfTask.Some? then Some(typeOfTask.value.name) else None;
        notifications := notifications + [ErrorNotice(NotRegisteredMessage(typeName))];
      }
    }

    /** The edit page of a task: its model with the store drop-down; a
        missing task faults on the first member access. */
    method EditSchedulerPage(id: string) returns (r: Result<ActionResult, Fault>)
      requires Valid()
      ensures r.Err? <==> id !in tasks
      ensures r.Err? ==> r.error == NullReference
      ensures r.Ok? ==>
                r.value == EditView(PrepareStores(PrepareScheduleTaskModel(tasks[id], mapToModel, toUserTime),
                                                  stores, translate(SelectKey)))
    {
      if id !in tasks {
        return Err(NullReference);
      }
      var task := tasks[id];
      var model := PrepareScheduleTaskModel(task, mapToModel, toUserTime);
      model := PrepareStores(model, stores, translate(SelectKey));
      r := Ok(EditView(model));
    }

    /** The edit form's POST. A valid form is mapped onto the stored task
        (null when the id is unknown) and written once, then the list or the
        edit page is shown. An invalid form writes nothing: it gets the stored
        name and type back and is shown again with the store drop-down and
        the validation errors; with an unknown id that access faults. */
    method EditScheduler(model: ScheduleTaskModel, modelIsValid: bool, continueEditing: bool)
      returns (r: Result<ActionResult, Fault>)
      requires Valid()
      modifies this
      ensures Valid()
      ensures !modelIsValid ==> tasks == old(tasks) && updates == old(updates)
      ensures !modelIsValid && model.id !in old(tasks) ==>
                r == Err(NullReference) && notifications == old(notifications)
      ensures !modelIsValid && model.id in old(tasks) ==>
                var stored := old(tasks)[model.id];
                && r == Ok(EditView(PrepareStores(model.(scheduleTaskName := stored.scheduleTaskName,
                                                         typeName := stored.typeName),
                                                  stores, translate(SelectKey))))
                && notifications == old(notifications) + [ModelStateErrors]
      ensures modelIsValid ==>
                var saved := mapOnto(model, if model.id in old(tasks) then Some(old(tasks)[model.id]) else None);
                && updates == old(updates) + [saved]
                && tasks == (if saved.id in old(tasks) then old(tasks)[saved.id := saved] else old(tasks))
                && notifications == old(notifications) + [SuccessNotice(translate(UpdatedKey))]
                && (!continueEditing ==> r == Ok(RedirectToList))
                && (continueEditing ==> (r.Err? <==> model.id !in tasks))
                && (continueEditing && model.id in tasks ==>
                      r == Ok(EditView(PrepareStores(PrepareScheduleTaskModel(tasks[model.id], mapToModel, toUserTime),
                                                     stores, translate(SelectKey)))))
    {
      var scheduleTask := if model.id in tasks then Some(tasks[model.id]) else None;
      if modelIsValid {
        var saved := mapOnto(model, scheduleTask);
        UpdateTask(saved);
        notifications := notifications + [SuccessNotice(translate(UpdatedKey))];
        if continueEditing {
          r := EditSchedulerPage(model.id);
          return;
        }
        return Ok(RedirectToList);
      }
      if scheduleTask.None? {
        return Err(NullReference);
      }
      var shown := model.(scheduleTaskName := scheduleTask.value.scheduleTaskName);
      shown := shown.(typeName := scheduleTask.value.typeName);
      shown := PrepareStores(shown, stores, translate(SelectKey));
      notifications := notifications + [ModelStateErrors];
      r := Ok(EditView(shown));
    }
  }
}
