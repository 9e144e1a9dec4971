/** From an accepted pod to the file its containers read. */
module EndToEnd {
  import opened Agreement
  import opened Delivery
  import opened Mutator
  import opened Paths
  import opened Pods
  import opened Validate
  import opened WebhookConfig
  import opened Wrappers

  /** Where chur-init delivers with the settings it read. */
  function TargetOf(s: Settings): Target {
    Target(Join(s.mountPath, s.ref), Join(s.mountPath, s.ref) + ".tmp", s.maxBytes)
  }

  /** The settings chur-init reads in an accepted pod. */
  ghost function SettingsFor(pod: Pod, cfg: Config): Settings
    requires StartupChecked(cfg) && Admit(pod, cfg).Accept?
  {
    InitAcceptsRequest(pod, cfg);
    ReadSettings(Admit(pod, cfg).req.env).value
  }

  /**
   Whatever crashes, the file an accepted pod is given lies below the mount
   path its app containers have, and once delivered it is a whole secret no
   larger than the volume.
   */
  lemma DeliveredBelowMountAndFits(pod: Pod, cfg: Config, run: seq<State>, k: nat)
    requires StartupChecked(cfg) && Admit(pod, cfg).Accept?
    requires IsRun(TargetOf(SettingsFor(pod, cfg)), run) && k < |run|
    ensures var g := TargetOf(SettingsFor(pod, cfg));
            && Components(g.path) == Components(MountPathOf(pod)) + Components(Annotation(pod, "chur.io/secret-ref"))
            && (Lookup(run[k].files, g.path) == Lookup(run[0].files, g.path) ||
                (g.path in run[k].files && run[k].files[g.path].content in run[k].fetched
                 && |run[k].files[g.path].content| <= cfg.volumeSizeLimit))
            && (run[k].phase.Done? ==>
                  && g.path in run[k].files && run[k].files[g.path].content == run[k].phase.secret
                  && Mode0640(run[k].files[g.path].mode) && g.path + ".tmp" !in run[k].files)
  {
    var g := TargetOf(SettingsFor(pod, cfg));
    InitAcceptsRequest(pod, cfg);
    AcceptedRequest(pod, cfg);
    var req := Admit(pod, cfg).req;
    Containment(req.provider, req.mountPath, req.ref);
    NeverPartial(g, run, k);
    if run[k].phase.Done? {
      CompletedRun(g, run, k);
    }
  }
}
