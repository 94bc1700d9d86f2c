/** The deployment stages of the oracle back end (src/worker/stages.ts): the
    three stage names, their validation and the per-stage configuration. */
module Stages {
  import opened Wrappers

  datatype StageName = Mainnet | Beta | Preprod {
    /** The stage's name as the worker's messages and tables spell it. */
    function Name(): (s: string)
      ensures |s| > 0
    {
      match this
      case Mainnet => "Mainnet"
      case Beta => "Beta"
      case Preprod => "Preprod"
    }
  }

  /** `STAGE_NAMES`, in the order every loop over the stages follows. */
  const STAGE_NAMES: seq<StageName> := [Mainnet, Preprod, Beta]

  /** Every stage is listed exactly once, Mainnet first and Beta last. */
  lemma StageNamesComplete()
    ensures forall s: StageName :: s in STAGE_NAMES
    ensures forall i, j :: 0 <= i < j < |STAGE_NAMES| ==> STAGE_NAMES[i] != STAGE_NAMES[j]
    ensures STAGE_NAMES[0] == Mainnet && STAGE_NAMES[1] == Preprod && STAGE_NAMES[2] == Beta
  {
    forall s: StageName
      ensures s in STAGE_NAMES
    {
      match s
      case Mainnet => assert STAGE_NAMES[0] == s;
      case Preprod => assert STAGE_NAMES[1] == s;
      case Beta => assert STAGE_NAMES[2] == s;
    }
  }

  /** The stage a string names, if any. */
  function ParseStage(str: string): (r: Option<StageName>)
    ensures r.Some? ==> r.value.Name() == str
    ensures r.None? ==> forall s: StageName :: s.Name() != str
  {
    if str == "Mainnet" then Some(Mainnet)
    else if str == "Beta" then Some(Beta)
    else if str == "Preprod" then Some(Preprod)
    else None
  }

  /** `isValidStageName(str)`: membership in `STAGE_NAMES`, by name. */
  predicate IsValidStageName(str: string) {
    exists i :: 0 <= i < |STAGE_NAMES| && STAGE_NAMES[i].Name() == str
  }

  /** A string is a valid stage name exactly when it is one of the three
      names, and then it parses to the stage it names; names do not collide. */
  lemma IsValidStageNameIff(str: string)
    ensures IsValidStageName(str) <==> str == "Mainnet" || str == "Preprod" || str == "Beta"
    ensures IsValidStageName(str) <==> ParseStage(str).Some?
    ensures forall s: StageName :: ParseStage(s.Name()) == Some(s)
  {
    if str == "Mainnet" { assert STAGE_NAMES[0].Name() == str; }
    if str == "Preprod" { assert STAGE_NAMES[1].Name() == str; }
    if str == "Beta" { assert STAGE_NAMES[2].Name() == str; }
  }

  /** `assertValidStageName(str)`: the stage, or the error it throws. */
  function AssertValidStageName(str: string): (r: Result<StageName, string>)
    ensures r.Success? <==> IsValidStageName(str)
    ensures r.Success? ==> r.value.Name() == str
    ensures r.Failure? ==> r.error == "unrecognized stage '" + str + "'"
  {
    IsValidStageNameIff(str);
    match ParseStage(str)
    case Some(s) => Success(s)
    case None => Failure("unrecognized stage '" + str + "'")
  }

  /** An entry of the `stages` table. */
  datatype StageConfig = StageConfig(baseUrl: string, assetsValidatorAddress: string)

  /** The human-readable parts of Cardano Shelley addresses on the main
      and the test network. */
  const MAINNET_ADDRESS_PREFIX: string := "addr1"
  const TESTNET_ADDRESS_PREFIX: string := "addr_test1"

  const HTTPS: string := "https://"

  /** `stages[stage]`: every stage has an entry. */
  function Config(stage: StageName): (c: StageConfig)
    ensures HTTPS <= c.baseUrl
  {
    match stage
    case Mainnet =>
      StageConfig(HTTPS + "api.oracle.token.pbg.io",
                  MAINNET_ADDRESS_PREFIX + "w9vdxw6jqws6tfq40j442qaw2704ya76eal6qlwvks5vckgeh2sx5")
    case Beta =>
      StageConfig(HTTPS + "api.oracle.beta.pbgtoken.io",
                  MAINNET_ADDRESS_PREFIX + "w8x0dausf8jjrg4ep3ds3trne80ravxtpa5hutnc0auvlws5wqake")
    case Preprod =>
      StageConfig(HTTPS + "api.oracle.preprod.pbgtoken.io",
                  TESTNET_ADDRESS_PREFIX + "wpwtcp7kedkjxxg3z64s9e79379yudmecclh5yycrxfg26q6rl3wp")
  }

  /** Only Preprod's validator lives on the test network. */
  lemma ConfigNetwork(s: StageName)
    ensures TESTNET_ADDRESS_PREFIX <= Config(s).assetsValidatorAddress <==> s == Preprod
    ensures MAINNET_ADDRESS_PREFIX <= Config(s).assetsValidatorAddress <==> s != Preprod
  {
    var a := Config(s).assetsValidatorAddress;
    match s
    case Preprod =>
      assert a[4] == TESTNET_ADDRESS_PREFIX[4] != MAINNET_ADDRESS_PREFIX[4];
    case _ =>
      assert a[4] == MAINNET_ADDRESS_PREFIX[4] != TESTNET_ADDRESS_PREFIX[4];
  }
}
