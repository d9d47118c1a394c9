/** The phase lists the two drivers run, and what the drivers' theorems say of
    them (internal/bastion/init.go). */
module PhaseLists {
  import opened Checkpoints
  import SR = SequentialRunner
  import PR = ParallelRun
  import RS = ResumeSafety

  const SEQUENTIAL: seq<string> := [
    "prerequisite_check", "system_setup", "directories", "config_files", "ocfp_directories",
    "configuration_files", "apt_repositories", "packages", "brew_install", "brew_packages",
    "post_brew_apt", "git_repos", "cpan_modules", "cf_plugins", "binary_tools",
    "genesis", "shell_environment", "system_environment", "ocfp_cli_setup", "helper_scripts",
    "vault_inception", "vault_populate", "pmx_context", "bloc_ca_trust", "ocfp_configure",
    "genesis_secrets_providers", "custom_scripts", "verification", "health_check", "local_vault_teardown"]

  const PRE: seq<string> := [
    "ssh_agent_forwarding", "bastion_keys",
    "prerequisite_check", "system_setup", "directories", "config_files", "ocfp_directories",
    "configuration_files", "apt_repositories", "packages", "brew_install", "brew_packages",
    "post_brew_apt", "git_repos"]

  const PAR: seq<string> := ["binary_tools", "cpan_modules", "cf_plugins"]

  const POST: seq<string> := [
    "genesis", "shell_environment", "system_environment", "ocfp_cli_setup", "helper_scripts",
    "vault_inception", "vault_populate", "pmx_context", "bloc_ca_trust", "ocfp_configure",
    "genesis_secrets_providers", "custom_scripts", "verification", "health_check", "local_vault_teardown"]

  const PLAN := PR.Plan(|SEQUENTIAL|, PRE, PAR, POST)

  /** These entries occur once from where they stand. */
  predicate Once(lo: nat, hi: nat) {
    forall i, j :: lo <= i < hi && i < j < 30 ==> SEQUENTIAL[i] != SEQUENTIAL[j]
  }

  lemma FirstPhase() ensures Once(0, 1) {}

  lemma SecondPhase() ensures Once(1, 2) {}

  lemma ThirdAndFourth() ensures Once(2, 4) {}

  lemma FifthToEighth() ensures Once(4, 8) {}

  lemma FromTheNinth() ensures Once(8, 30) {}

  lemma SequentialListIsDistinct()
    ensures SR.DistinctPhases(SEQUENTIAL)
  {
    FirstPhase();
    SecondPhase();
    ThirdAndFourth();
    FifthToEighth();
    FromTheNinth();
  }

  /** Both drivers run the same phases in the same order, but that the parallel one
      runs two more first and leaves the order of three to its pool. */
  lemma ListsAgree()
    ensures PRE[2..] == SEQUENTIAL[..12] && POST == SEQUENTIAL[15..]
    ensures multiset(PAR) == multiset(SEQUENTIAL[12..15])
  {
    assert SEQUENTIAL[12..15] == ["cpan_modules", "cf_plugins", "binary_tools"];
  }

  /** Over every chain of sequential and parallel processes and then a sequential one:
      each phase is called only when all the phases before it have returned nil, the
      teardown of the local vault, which is listed last, only when all the others have. */
  lemma TeardownIsLast(owner: Owner, w: RS.World, before: seq<RS.Process>, run: SR.Run, p: nat, i: nat)
    requires RS.Honest(w) && forall q | q in before :: q.MarksHonestly()
    requires i < |SEQUENTIAL| - 1
    ensures var now := RS.Chain(owner, w, before);
            var log := RS.SequentialEnd(owner, now, RS.Sequential(SEQUENTIAL, run)).log;
            p < |log| && log[p] == SR.Called("local_vault_teardown") ==>
              SEQUENTIAL[i] in now.returned + SR.Done(log[..p])
  {
    SequentialListIsDistinct();
    RS.MixedChainsAreOrdered(owner, w, before, RS.Sequential(SEQUENTIAL, run));
    assert SEQUENTIAL[29] == "local_vault_teardown";
  }

  /** And wherever an interleaving of a parallel process has got to: while a phase
      of the last batch is under way, every phase of the first batch and of the pool
      has returned nil, and so has every phase before it in the last batch. */
  lemma LastBatchFindsTheRestDone(owner: Owner, w: RS.World, options: Options, workers: int, now: int,
                                  events: seq<PR.Event>, phase: string)
    requires RS.Honest(w) && !options.dryRun
    ensures var end := RS.ParallelEnd(owner, w, RS.Parallel(options, workers, PLAN, now, events));
            end.stage.Batch? && end.stage.last && end.stage.h.Busy() && end.stage.h.t <= |POST| ==>
              (phase in PRE + PAR + POST[..end.stage.h.t] ==> phase in end.sh.returned)
  {
    var r := PR.Run(owner, options, workers, PLAN);
    PR.BootIsSound(r, w.file, w.returned, now);
    PR.EveryInterleavingIsSound(r, PR.Boot(r, w.file, w.returned, now), events);
  }
}
