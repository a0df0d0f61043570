/** The complete effect of the steps that concern one device. */
module Steps {
  import opened Scan
  import opened Tracker
  import Paths

  /** Only a GetManagedObjects reply, or a reply that ends a detection early, touches the map as a whole. */
  lemma NoScan(su: Setup, c: Core, a: Action)
    requires a.Event? || a.RunTask?
    ensures Overwrites(su, c, a).None? && Inserts(su, c, a).None?
  {
  }

  lemma TaskStep(su: Setup, m: Machine, task: Task)
    requires task in m.pending
    ensures Step(su, m, RunTask(task)) == Machine(
      m.core,
      if task.AddDevice? then Emplace(m.endpointMap, task.device, Entry(0, task.service)) else m.endpointMap,
      m.pending - multiset{task},
      m.log + [Notice(task)])
  {
    hide Overwrites, Inserts, SignalDevice, Emplace;
    NoScan(su, m.core, RunTask(task));
  }

  lemma NotInBag(tasks: multiset<Task>, task: Task)
    requires task !in tasks
    ensures tasks - multiset{task} == tasks
  {
  }

  lemma IdleTask(su: Setup, m: Machine, task: Task)
    requires task !in m.pending
    ensures Step(su, m, RunTask(task)) == m
  {
    hide Overwrites, Inserts, SignalDevice;
    NoScan(su, m.core, RunTask(task));
    NotInBag(m.pending, task);
  }

  lemma EndpointEventCore(su: Setup, c: Core, a: Action)
    requires a.Event? && SignalDevice(su, c, a.signal).Some?
    ensures EventCore(su, c, a.signal, a.replies) == Remember(c, a.signal.sender, a.replies)
    ensures Outputs(su, c, a) == []
  {
    hide Announces, Withdraws, Paths.IsBase;
  }

  /** An announcement leaves the map to the task it spawns. */
  lemma AnnouncementStep(su: Setup, m: Machine, a: Action)
    requires AddedDevice(su, m.core, a).Some?
    ensures Step(su, m, a) == Machine(
      Remember(m.core, a.signal.sender, a.replies), m.endpointMap, m.pending + Bag(SpawnedAdd(su, m.core, a)), m.log)
  {
    hide Overwrites, Inserts, SignalDevice, EventCore, Outputs;
    NoScan(su, m.core, a);
    EndpointEventCore(su, m.core, a);
  }

  /** A withdrawal takes the device out at once. */
  lemma WithdrawalStep(su: Setup, m: Machine, a: Action)
    requires RemovedDevice(su, m.core, a).Some?
    ensures Step(su, m, a) == Machine(
      Remember(m.core, a.signal.sender, a.replies), m.endpointMap - {RemovedDevice(su, m.core, a).value},
      m.pending + Bag(SpawnedNotice(su, m, a)), m.log)
  {
    hide Overwrites, Inserts, SignalDevice, EventCore, Outputs;
    NoScan(su, m.core, a);
    EndpointEventCore(su, m.core, a);
  }

  /** Every other action spawns nothing, and changes the map only at the end of a scan. */
  lemma OtherStep(su: Setup, m: Machine, a: Action)
    requires !a.RunTask? && AddedDevice(su, m.core, a).None? && RemovedDevice(su, m.core, a).None?
    ensures Step(su, m, a) == Machine(
      CoreStep(su, m.core, a),
      if Overwrites(su, m.core, a).Some? then Overwrites(su, m.core, a).value
      else if Inserts(su, m.core, a).Some? then Inserts(su, m.core, a).value + m.endpointMap
      else m.endpointMap,
      m.pending,
      m.log + Outputs(su, m.core, a))
  {
    hide Overwrites, Inserts, SignalDevice, CoreStep, Outputs;
  }
}
