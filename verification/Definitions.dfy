/** Job definitions as the Server sends them, and what the compiler takes from them. */
module Definitions {
  import opened Basics
  import opened Scheduling

  /** The Task `oneof`: empty, a built-in collector, or a plugin Task. */
  datatype TaskDefinition =
    | Unset
    | Builtin(builtinKind: Text, blocking: bool, settings: Bytes)
    | Plugin(pluginId: Text, pluginVersion: Text, pluginKind: Text, settings: Bytes)

  datatype JobDefinition = JobDefinition(
    jobId: Bytes,
    revision: nat,
    enabled: bool,
    trigger: Option<Trigger>,
    options: JobOptions,
    task: Option<TaskDefinition>)

  /** Ids travel as bytes; only 16 of them make a UUID. */
  function ParseUuid(bytes: Bytes): Option<JobId> {
    if |bytes| == 16 then Some(bytes) else None
  }

  function TaskKind(task: TaskDefinition): Option<Text> {
    match task
    case Unset => None
    case Builtin(kind, _, _) => Some(kind)
    case Plugin(_, _, kind, _) => if kind == [] then None else Some(kind)
  }

  function KindOf(d: JobDefinition): Option<Text> {
    if d.task.Some? then TaskKind(d.task.value) else None
  }

  function PluginOf(d: JobDefinition): Option<PluginKey> {
    if d.task.Some? && d.task.value.Plugin? then Some((d.task.value.pluginId, d.task.value.pluginVersion)) else None
  }

  /** The checks every definition must pass before anything is built from it. `builds` stands for the
      field conversions and the Task factory, which also looks at the plugin Workers of the moment. */
  predicate Compiles(d: JobDefinition, builds: JobDefinition -> bool) {
    && ParseUuid(d.jobId).Some?
    && d.revision > 0
    && d.trigger.Some?
    && KindOf(d).Some?
    && (PluginOf(d).Some? ==> PluginOf(d).value.0 != [] && PluginOf(d).value.1 != [])
    && builds(d)
  }

  function BindingOf(d: JobDefinition): TaskBinding
    requires KindOf(d).Some?
  {
    TaskBinding(KindOf(d).value, d.task.value.settings, d.revision,
                d.task.value.Builtin? && d.task.value.blocking)
  }

  /** The whole option set as a patch. Concurrency and pending limits are cleared when absent;
      coalescing and capacity are passed on as they are, and an absent one means "keep". */
  function FullPatch(d: JobDefinition): JobPatch
    requires d.trigger.Some? && KindOf(d).Some?
  {
    JobPatch(Some(BindingOf(d)), d.trigger,
             if d.options.concurrency.Some? then Set(d.options.concurrency.value) else Inherit,
             if d.options.maxPending.Some? then Set(d.options.maxPending.value) else Inherit,
             Some(d.options.priority), d.options.coalescing, d.options.capacity,
             Some(d.options.retry), Some(d.options.failure), Recalculate)
  }

  /** The entry a first installation of `d` would create. */
  function FreshFor(d: JobDefinition, version: nat, state: JobState): JobEntry
    requires d.trigger.Some? && KindOf(d).Some?
  {
    FreshEntry(version, d.enabled, d.trigger.value, BindingOf(d), d.options).(state := state)
  }

  /** Updating an installed Job gives the configuration a fresh installation would have, except that
      coalescing and capacity are inherited from the Job's past: they agree exactly when the new
      options set them or the old value already is the default of the new trigger. */
  lemma UpdateEqualsInstall(entry: JobEntry, d: JobDefinition)
    requires d.trigger.Some? && KindOf(d).Some?
    ensures var updated := PatchedEntry(entry, FullPatch(d));
            var anew := FreshFor(d, entry.version + 1, entry.state);
            && updated.(coalescing := anew.coalescing, capacity := anew.capacity) == anew
            && (updated == anew <==>
                  && (d.options.coalescing.Some? || entry.coalescing == DefaultCoalescing(d.trigger.value))
                  && (d.options.capacity.Some? || entry.capacity == DefaultCapacity(d.trigger.value)))
  {
    var updated := PatchedEntry(entry, FullPatch(d));
    assert updated.task == BindingOf(d) && updated.trigger == d.trigger.value;
  }

  /** The same gap rejects updates that an installation would accept: exactly those that make a catch-up Job
      and leave a queue policy to the Job's past, which was a lossy one. */
  lemma CatchUpUpdateRefused(s: Scheduler, id: JobId, d: JobDefinition)
    requires id in s.jobs && s.jobs[id].version < U64_MAX
    requires d.trigger.Some? && KindOf(d).Some?
    requires TriggerError(d.trigger.value, d.options, s.limits).None?
    requires CancellationError(d.trigger.value, BindingOf(d)).None? && Fires(d.trigger.value, s.limits)
    ensures UpdateError(s, id, s.jobs[id].version, FullPatch(d)).Some?
            <==> && d.trigger.value.misfire.CatchUp?
                 && (|| (d.options.coalescing.None? && s.jobs[id].coalescing != KeepAll)
                     || (d.options.capacity.None? && s.jobs[id].capacity != Backpressure))
  {
    UpdateEqualsInstall(s.jobs[id], d);
    var candidate := PatchedEntry(s.jobs[id], FullPatch(d));
    assert OptionsOf(candidate).retry == d.options.retry && OptionsOf(candidate).maxPending == d.options.maxPending;
  }
}
