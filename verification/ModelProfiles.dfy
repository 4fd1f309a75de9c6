/**
 Model profiles and the runtime classes that may run side by side
 (app/core/ai_jobs.py). A profile name the server does not know is Unlisted;
 a job row may also carry no profile at all.
 */
module ModelProfiles {
  import opened Base

  datatype Profile =
    | FastChat | CrmAnalysis | CodingDefault | QualityChat
    | CodingLarge | VoiceSummary | EmbeddingDefault
    | Unlisted(name: string)

  datatype RuntimeClass = ChatLight | CodingFallback | SingleAdmission | Unavailable

  const MODEL_PROFILES: set<Profile> :=
    {FastChat, CrmAnalysis, CodingDefault, QualityChat, CodingLarge, VoiceSummary, EmbeddingDefault}

  const WORKER_HARD_SAFETY_CAP: nat := 2

  function ClassOf(profile: Profile): Option<RuntimeClass> {
    match profile
    case FastChat => Some(ChatLight)
    case CrmAnalysis => Some(ChatLight)
    case CodingDefault => Some(CodingFallback)
    case QualityChat => Some(SingleAdmission)
    case CodingLarge => Some(SingleAdmission)
    case VoiceSummary => Some(SingleAdmission)
    case EmbeddingDefault => Some(Unavailable)
    case Unlisted(_) => None
  }

  function ClassOfRow(profile: Option<Profile>): Option<RuntimeClass> {
    if profile.None? then None else ClassOf(profile.value)
  }

  function CompatibleClasses(c: RuntimeClass): set<RuntimeClass> {
    match c
    case ChatLight => {ChatLight}
    case CodingFallback => {CodingFallback}
    case SingleAdmission => {}
    case Unavailable => {}
  }

  function ClassesOf(active: set<Option<Profile>>): set<Option<RuntimeClass>> {
    set p | p in active :: ClassOfRow(p)
  }

  /** Governed profiles whose class may run beside class c. */
  function ProfilesBeside(c: Option<RuntimeClass>): set<Profile> {
    if c.None? then {} else
      set p | p in MODEL_PROFILES && ClassOf(p).Some? && ClassOf(p).value in CompatibleClasses(c.value)
  }

  /** Profiles the server permits beside leases running the given profiles. */
  function CompatibleProfiles(active: set<Option<Profile>>): (r: set<Profile>)
    ensures r <= MODEL_PROFILES
  {
    var classes := ClassesOf(active);
    if active == {} then MODEL_PROFILES
    else if |classes| != 1 then {}
    else set p | p in MODEL_PROFILES && exists c | c in classes :: p in ProfilesBeside(c)
  }

  function EffectiveProfiles(active: set<Option<Profile>>, requested: Option<seq<Profile>>): (r: set<Profile>) {
    var server := CompatibleProfiles(active);
    if requested.None? then server else set p | p in server && p in requested.value
  }

  /** Two rows may be leased to one worker at once: same runtime class, and that class tolerates itself. */
  predicate MayShare(a: Option<Profile>, b: Option<Profile>) {
    && ClassOfRow(a).Some?
    && ClassOfRow(a) == ClassOfRow(b)
    && ClassOfRow(a).value in CompatibleClasses(ClassOfRow(a).value)
  }

  lemma SharingIsMutual(a: Option<Profile>, b: Option<Profile>)
    ensures MayShare(a, b) <==> MayShare(b, a)
  {
  }

  /** Who shares with whom, by name: the two light chat profiles with themselves and each other, the default coding
      profile with itself, and nobody else with anybody. */
  lemma SharersExactly(a: Option<Profile>, b: Option<Profile>)
    ensures MayShare(a, b) <==>
            || ((a == Some(FastChat) || a == Some(CrmAnalysis)) && (b == Some(FastChat) || b == Some(CrmAnalysis)))
            || (a == Some(CodingDefault) && b == Some(CodingDefault))
  {
  }

  lemma BesideIsSharing(a: Option<Profile>, p: Profile)
    ensures p in ProfilesBeside(ClassOfRow(a)) <==> p in MODEL_PROFILES && MayShare(a, Some(p))
  {
  }

  lemma OneClass(active: set<Option<Profile>>, a: Option<Profile>)
    requires a in active
    ensures ClassOfRow(a) in ClassesOf(active)
    ensures |ClassesOf(active)| == 1 <==> forall b | b in active :: ClassOfRow(b) == ClassOfRow(a)
    ensures |ClassesOf(active)| == 1 ==> ClassesOf(active) == {ClassOfRow(a)}
  {
    var classes := ClassesOf(active);
    assert ClassOfRow(a) in classes;
    if |classes| == 1 {
      assert |classes - {ClassOfRow(a)}| == 0;
      forall b | b in active ensures ClassOfRow(b) == ClassOfRow(a) {
        assert ClassOfRow(b) in classes;
      }
    }
    if forall b | b in active :: ClassOfRow(b) == ClassOfRow(a) {
      assert classes == {ClassOfRow(a)};
    }
  }

  /** The admission rule, said without its mechanism: p is admitted beside the active leases iff it is a
      governed profile that may share the worker with each of them. */
  lemma AdmittedExactly(active: set<Option<Profile>>, p: Profile)
    ensures p in CompatibleProfiles(active) <==>
            p in MODEL_PROFILES && forall a | a in active :: MayShare(a, Some(p))
  {
    if active != {} {
      var a :| a in active;
      OneClass(active, a);
      BesideIsSharing(a, p);
    }
  }

  /** A client's own filter never widens the server's policy (tests/test_ai_worker_queue_runtime.py). */
  lemma FilterNeverWidens(active: set<Option<Profile>>, requested: Option<seq<Profile>>, p: Profile)
    ensures p in EffectiveProfiles(active, requested) <==>
            && p in MODEL_PROFILES
            && (forall a | a in active :: MayShare(a, Some(p)))
            && (requested.Some? ==> p in requested.value)
  {
    AdmittedExactly(active, p);
  }
}
