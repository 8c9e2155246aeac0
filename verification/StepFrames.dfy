/** What a step leaves alone. */
module StepFrames {
  import opened Names
  import opened Store
  import opened Metal
  import opened Protocol
  import opened Invariant
  import opened Frames
  import DS = DeploymentSteps

  /** What the steps of machine objects and their runs are. */
  lemma UnfoldsMachine(s: Sys, step: Step)
    requires OnMachines(step)
    ensures step.SLoadMachine? ==> Next(s, step) == LoadMachine(s, step.u)
    ensures step.SActMachine? ==> Next(s, step) == ActMachine(s, step.u, step.mrep, step.paused)
    ensures step.SPatchMachine? ==> Next(s, step) == PatchMachine(s, step.u, step.applied)
    ensures step.SVanishMachine? ==> Next(s, step) == VanishMachine(s, step.u)
    ensures step.SCreateMachine? ==> Next(s, step) == CreateMachine(s, step.u, step.machine)
    ensures step.SDeleteMachine? ==> Next(s, step) == DeleteMachine(s, step.u)
    ensures step.SSetSecret? ==> Next(s, step) == SetSecret(s, step.u, step.secret)
  {
    hide LoadMachine, ActMachine, PatchMachine, VanishMachine, CreateMachine, DeleteMachine, SetSecret;
  }

  /** What the steps of cluster objects and their runs are. */
  lemma UnfoldsCluster(s: Sys, step: Step)
    requires OnClusters(step)
    ensures step.SLoadCluster? ==> Next(s, step) == LoadCluster(s, step.k)
    ensures step.SActCluster? ==> Next(s, step) == ActCluster(s, step.k, step.crep, step.paused)
    ensures step.SPatchCluster? ==> Next(s, step) == PatchCluster(s, step.k, step.applied)
    ensures step.SVanishCluster? ==> Next(s, step) == VanishCluster(s, step.k)
    ensures step.SCreateCluster? ==> Next(s, step) == CreateCluster(s, step.k, step.cluster)
    ensures step.SDeleteCluster? ==> Next(s, step) == DeleteCluster(s, step.k)
  {
    hide LoadCluster, ActCluster, PatchCluster, VanishCluster, CreateCluster, DeleteCluster;
  }

  /** What the steps of deployment objects and their runs are. */
  lemma UnfoldsDeployment(s: Sys, step: Step)
    requires OnDeployments(step)
    ensures step.SLoadDeployment? ==> Next(s, step) == LoadDeployment(s, step.k)
    ensures step.SActDeployment? ==> Next(s, step) == ActDeployment(s, step.k, step.frep, step.paused)
    ensures step.SPatchDeployment? ==> Next(s, step) == PatchDeployment(s, step.k, step.applied)
    ensures step.SVanishDeployment? ==> Next(s, step) == VanishDeployment(s, step.k)
    ensures step.SCreateDeployment? ==> Next(s, step) == CreateDeployment(s, step.k, step.deployment)
    ensures step.SDeleteDeployment? ==> Next(s, step) == DeleteDeployment(s, step.k)
    ensures step.SDropRef? ==> Next(s, step) == DropRef(s, step.k)
  {
    hide LoadDeployment, ActDeployment, PatchDeployment, VanishDeployment, CreateDeployment, DeleteDeployment, DropRef;
  }

  /** What the steps of the world around are that touch hosts. */
  lemma UnfoldsHost(s: Sys, step: Step)
    requires step.SFreeExternally? || step.SRecycle? || step.SReportHost?
    ensures step.SFreeExternally? ==> Next(s, step) == FreeExternally(s, step.id)
    ensures step.SRecycle? ==> Next(s, step) == Recycle(s, step.id, step.host)
    ensures step.SReportHost? ==> Next(s, step) == ReportHost(s, step.id, step.report)
  {
    hide FreeExternally, Recycle, ReportHost;
  }

  /** Machine objects, their runs and books. */
  lemma MachineFrame(s: Sys, step: Step)
    requires !OnMachines(step)
    ensures var t := Next(s, step); t.kube.machines == s.kube.machines && t.mruns == s.mruns && t.mbooks == s.mbooks
  {
    hide LoadMachine, ActMachine, PatchMachine, VanishMachine, LoadCluster, ActCluster, PatchCluster, VanishCluster,
      LoadDeployment, ActDeployment, PatchDeployment, VanishDeployment, CreateCluster, DeleteCluster, CreateMachine,
      DeleteMachine, SetSecret, CreateDeployment, DeleteDeployment, DropRef, SetTemplate, RemoveTemplate, Tick,
      FreeExternally, Recycle, ReportHost;
  }

  /** Cluster objects and their runs. */
  lemma ClusterFrame(s: Sys, step: Step)
    requires !OnClusters(step)
    ensures Next(s, step).kube.clusters == s.kube.clusters && Next(s, step).cruns == s.cruns
  {
    hide LoadMachine, ActMachine, PatchMachine, VanishMachine, LoadCluster, ActCluster, PatchCluster, VanishCluster,
      LoadDeployment, ActDeployment, PatchDeployment, VanishDeployment, CreateCluster, DeleteCluster, CreateMachine,
      DeleteMachine, SetSecret, CreateDeployment, DeleteDeployment, DropRef, SetTemplate, RemoveTemplate, Tick,
      FreeExternally, Recycle, ReportHost;

  }

  /** Deployment objects, which only the cluster controller touches besides, and
      their runs. */
  lemma DeploymentFrame(s: Sys, step: Step)
    requires !OnDeployments(step)
    ensures Next(s, step).fruns == s.fruns
    ensures Next(s, step).kube.deployments == s.kube.deployments || step.SActCluster?
  {
    hide LoadMachine, ActMachine, PatchMachine, VanishMachine, LoadCluster, ActCluster, PatchCluster, VanishCluster,
      LoadDeployment, ActDeployment, PatchDeployment, VanishDeployment, CreateCluster, DeleteCluster, CreateMachine,
      DeleteMachine, SetSecret, CreateDeployment, DeleteDeployment, DropRef, SetTemplate, RemoveTemplate, Tick,
      FreeExternally, Recycle, ReportHost;
  }

  lemma TemplateFrame(s: Sys, step: Step)
    requires !step.SActDeployment?
    ensures step.SRemoveTemplate? || s.kube.templates.Keys <= Next(s, step).kube.templates.Keys
    ensures step.SRemoveTemplate? ==> Next(s, step).kube.templates.Keys == s.kube.templates.Keys - {step.k}
  {
    hide LoadMachine, ActMachine, PatchMachine, VanishMachine, LoadCluster, ActCluster, PatchCluster, VanishCluster,
      LoadDeployment, ActDeployment, PatchDeployment, VanishDeployment, CreateCluster, DeleteCluster, CreateMachine,
      DeleteMachine, SetSecret, CreateDeployment, DeleteDeployment, DropRef, Tick, FreeExternally, Recycle,
      ReportHost;
  }

  lemma TimeFrame(s: Sys, step: Step)
    ensures s.now <= Next(s, step).now
  {
    hide LoadMachine, ActMachine, PatchMachine, VanishMachine, LoadCluster, ActCluster, PatchCluster, VanishCluster,
      LoadDeployment, ActDeployment, PatchDeployment, VanishDeployment, CreateCluster, DeleteCluster, CreateMachine,
      DeleteMachine, SetSecret, CreateDeployment, DeleteDeployment, DropRef, SetTemplate, RemoveTemplate, Tick,
      FreeExternally, Recycle, ReportHost;
  }

  /** Only the cluster controller changes more of the provider than hosts; a new
      cluster takes the names it is given out of what can be handed out. */
  lemma MetalFrame(s: Sys, step: Step)
    requires Inv(s) && !step.SActCluster?
    ensures var m, m' := s.metal, Next(s, step).metal;
      && m' == m.(hosts := m'.hosts, spentNets := m'.spentNets, spentIps := m'.spentIps)
      && m.spentNets <= m'.spentNets && m.spentIps <= m'.spentIps
      && (step.SCreateCluster? || m' == m.(hosts := m'.hosts))
  {
    hide Inv, LoadMachine, ActMachine, PatchMachine, VanishMachine, LoadCluster, ActCluster, PatchCluster,
      VanishCluster, LoadDeployment, ActDeployment, PatchDeployment, VanishDeployment, CreateCluster, DeleteCluster,
      CreateMachine, DeleteMachine, SetSecret, CreateDeployment, DeleteDeployment, DropRef, SetTemplate,
      RemoveTemplate, Tick, FreeExternally, Recycle, ReportHost;
    if step.SActDeployment? {
      DS.ActReshapes(s, step.k, step.frep, step.paused);
    }
  }

  /** Hosts come and go by the runs of two controllers and by the world around. */
  lemma HostFrame(s: Sys, step: Step)
    requires !(step.SActMachine? || step.SActDeployment? || step.SFreeExternally? || step.SRecycle?
        || step.SReportHost?)
    ensures Next(s, step).metal.hosts == s.metal.hosts
  {
    hide LoadMachine, ActMachine, PatchMachine, VanishMachine, LoadCluster, ActCluster, PatchCluster, VanishCluster,
      LoadDeployment, ActDeployment, PatchDeployment, VanishDeployment, CreateCluster, DeleteCluster, CreateMachine,
      DeleteMachine, SetSecret, CreateDeployment, DeleteDeployment, DropRef, SetTemplate, RemoveTemplate, Tick,
      FreeExternally, Recycle, ReportHost;
  }
}
