/**
 * The error catalogue of the builder: the code prefix, the descriptor record,
 * the code formatter, the table of category number ranges and the table of
 * error descriptors, together with the numbering invariants the tables keep.
 */
module ErrorsList {
  import opened Wrappers
  import opened Decimal

  /** The fixed prefix of every error code. */
  const ErrorPrefix: string := "ABLDR"

  /**
   * An error descriptor. `message` may hold `%name%` placeholders; it is kept as an
   * opaque string. The Markdown `description` is not modelled.
   */
  datatype ErrorDescriptor = ErrorDescriptor(number: nat, message: string, title: string)

  /** The externally visible code of an error: the prefix followed by the decimal number. */
  function GetErrorCode(error: ErrorDescriptor): (code: string)
    ensures |code| > |ErrorPrefix| && code[..|ErrorPrefix|] == ErrorPrefix
    ensures IsCanonical(code[|ErrorPrefix|..])
    ensures ParseErrorCode(code) == Some(error.number)
  {
    ParseNatToString(error.number);
    var code := ErrorPrefix + NatToString(error.number);
    assert code[|ErrorPrefix|..] == NatToString(error.number);
    code
  }

  /** Reads an error code back: strips the prefix and parses the rest as decimal. */
  function ParseErrorCode(code: string): (r: Option<nat>)
  {
    if |code| >= |ErrorPrefix| && code[..|ErrorPrefix|] == ErrorPrefix
    then ParseDecimal(code[|ErrorPrefix|..])
    else None
  }

  /** Two descriptors have the same code exactly when they have the same number. */
  lemma ErrorCodeInjective(a: ErrorDescriptor, b: ErrorDescriptor)
    ensures GetErrorCode(a) == GetErrorCode(b) <==> a.number == b.number
  {
    if GetErrorCode(a) == GetErrorCode(b) {
      assert ParseErrorCode(GetErrorCode(a)) == ParseErrorCode(GetErrorCode(b));
    } else {
      NatToStringInjective(a.number, b.number);
    }
  }

  /** A code that parses, and whose digits are canonical, is the code of any descriptor with that number. */
  lemma ErrorCodeCanonical(code: string, error: ErrorDescriptor)
    requires |code| >= |ErrorPrefix| && IsCanonical(code[|ErrorPrefix|..])
    requires ParseErrorCode(code) == Some(error.number)
    ensures GetErrorCode(error) == code
  {
    NatToStringOfCanonical(code[|ErrorPrefix|..]);
    assert code == code[..|ErrorPrefix|] + code[|ErrorPrefix|..];
  }

  // ---------------------------------------------------------------------------
  // Categories and their ranges

  /** The five error categories, the keys of the range table. */
  datatype Category = General | Network | TaskDefinitions | Arguments | Plugins

  /** An inclusive interval of error numbers, with the category's title. */
  datatype CategoryRange = CategoryRange(min: nat, max: nat, title: string)

  /** The range table. */
  const ErrorRanges: map<Category, CategoryRange> := map[
    General := CategoryRange(0, 99, "General errors"),
    Network := CategoryRange(100, 199, "Network related errors"),
    TaskDefinitions := CategoryRange(200, 299, "Task definition errors"),
    Arguments := CategoryRange(300, 399, "Arguments related errors"),
    Plugins := CategoryRange(800, 899, "Plugin system errors")
  ]

  // ---------------------------------------------------------------------------
  // The descriptors
  //
  // Each category's descriptor object becomes a datatype with one constructor per key,
  // in the order of the source; an ErrorName pairs such a key with its category. The
  // number, message and title of each key are given by the three functions below.

  // GENERAL
  datatype GeneralError =
    NotInsideProject
    | InvalidNodeVersion
    | UnsupportedOperation
    | ContextAlreadyCreated
    | ContextNotCreated
    | ContextBreNotDefined
    | ContextBreAlreadyDefined
    | InvalidConfig
    | LibImportedFromTheConfig
    | UserConfigModified
    | InitInsideProject

  // NETWORK
  datatype NetworkError =
    ConfigNotFound
    | InvalidGlobalChainId
    | DeprecatedInvalidTxChainId
    | EthsignMissingDataParam
    | NotLocalAccount
    | MissingTxParamToSignLocally
    | NoRemoteAccountAvailable
    | InvalidHdPath
    | InvalidRpcQuantityValue
    | NodeIsNotRunning
    | NetworkTimeout
    | InvalidJsonResponse
    | CantDeriveKey

  // TASK_DEFINITIONS
  datatype TaskDefinitionError =
    ParamAfterVariadic
    | ParamAlreadyDefined
    | ParamClashesWithBuilderParam
    | MandatoryParamAfterOptional
    | OverrideNoParams
    | OverrideNoMandatoryParams
    | OverrideNoPositionalParams
    | OverrideNoVariadicParams
    | ActionNotSet
    | RunsuperNotAvailable
    | DefaultValueWrongType
    | DefaultInMandatoryParam
    | InvalidParamNameCasing

  // ARGUMENTS
  datatype ArgumentError =
    InvalidEnvVarValue
    | InvalidValueForType
    | InvalidInputFile
    | UnrecognizedTask
    | UnrecognizedCommandLineArg
    | UnrecognizedParamName
    | MissingTaskArgument
    | MissingPositionalArg
    | UnrecognizedPositionalArg
    | RepeatedParam
    | ParamNameInvalidCasing
    | InvalidJsonArgument

  // PLUGINS
  datatype PluginError =
    NotInstalled
    | MissingDependency
    | DependencyVersionMismatch
    | OldStyleImportDetected

  /** An error key, paired with the category whose descriptor object declares it. */
  datatype ErrorName =
    | GeneralName(general: GeneralError)
    | NetworkName(network: NetworkError)
    | TaskDefinitionName(taskDefinition: TaskDefinitionError)
    | ArgumentName(argument: ArgumentError)
    | PluginName(plugin: PluginError)

  /** The error's number. */
  function Number(n: ErrorName): nat
  {
    match n
    // GENERAL
    case GeneralName(NotInsideProject) => 1
    case GeneralName(InvalidNodeVersion) => 2
    case GeneralName(UnsupportedOperation) => 3
    case GeneralName(ContextAlreadyCreated) => 4
    case GeneralName(ContextNotCreated) => 5
    case GeneralName(ContextBreNotDefined) => 6
    case GeneralName(ContextBreAlreadyDefined) => 7
    case GeneralName(InvalidConfig) => 8
    case GeneralName(LibImportedFromTheConfig) => 9
    case GeneralName(UserConfigModified) => 10
    case GeneralName(InitInsideProject) => 11
    // NETWORK
    case NetworkName(ConfigNotFound) => 100
    case NetworkName(InvalidGlobalChainId) => 101
    case NetworkName(DeprecatedInvalidTxChainId) => 102
    case NetworkName(EthsignMissingDataParam) => 103
    case NetworkName(NotLocalAccount) => 104
    case NetworkName(MissingTxParamToSignLocally) => 105
    case NetworkName(NoRemoteAccountAvailable) => 106
    case NetworkName(InvalidHdPath) => 107
    case NetworkName(InvalidRpcQuantityValue) => 108
    case NetworkName(NodeIsNotRunning) => 109
    case NetworkName(NetworkTimeout) => 110
    case NetworkName(InvalidJsonResponse) => 111
    case NetworkName(CantDeriveKey) => 112
    // TASK_DEFINITIONS
    case TaskDefinitionName(ParamAfterVariadic) => 200
    case TaskDefinitionName(ParamAlreadyDefined) => 201
    case TaskDefinitionName(ParamClashesWithBuilderParam) => 202
    case TaskDefinitionName(MandatoryParamAfterOptional) => 203
    case TaskDefinitionName(OverrideNoParams) => 204
    case TaskDefinitionName(OverrideNoMandatoryParams) => 210
    case TaskDefinitionName(OverrideNoPositionalParams) => 211
    case TaskDefinitionName(OverrideNoVariadicParams) => 212
    case TaskDefinitionName(ActionNotSet) => 205
    case TaskDefinitionName(RunsuperNotAvailable) => 206
    case TaskDefinitionName(DefaultValueWrongType) => 207
    case TaskDefinitionName(DefaultInMandatoryParam) => 208
    case TaskDefinitionName(InvalidParamNameCasing) => 209
    // ARGUMENTS
    case ArgumentName(InvalidEnvVarValue) => 300
    case ArgumentName(InvalidValueForType) => 301
    case ArgumentName(InvalidInputFile) => 302
    case ArgumentName(UnrecognizedTask) => 303
    case ArgumentName(UnrecognizedCommandLineArg) => 304
    case ArgumentName(UnrecognizedParamName) => 305
    case ArgumentName(MissingTaskArgument) => 306
    case ArgumentName(MissingPositionalArg) => 307
    case ArgumentName(UnrecognizedPositionalArg) => 308
    case ArgumentName(RepeatedParam) => 309
    case ArgumentName(ParamNameInvalidCasing) => 310
    case ArgumentName(InvalidJsonArgument) => 311
    // PLUGINS
    case PluginName(NotInstalled) => 800
    case PluginName(MissingDependency) => 801
    case PluginName(DependencyVersionMismatch) => 802
    case PluginName(OldStyleImportDetected) => 803
  }

  /** The error's message template; its `%name%` placeholders are left unexpanded. */
  function Message(n: ErrorName): string
  {
    match n
    // GENERAL
    case GeneralName(NotInsideProject) => "You are not inside a Builder project."
    case GeneralName(InvalidNodeVersion) => "Builder doesn't support your Node.js version. It should be %requirement%."
    case GeneralName(UnsupportedOperation) => "%operation% is not supported in Builder."
    case GeneralName(ContextAlreadyCreated) => "BuilderContext is already created."
    case GeneralName(ContextNotCreated) => "BuilderContext is not created."
    case GeneralName(ContextBreNotDefined) => "Builder Runtime Environment is not defined in the BuilderContext."
    case GeneralName(ContextBreAlreadyDefined) => "Builder Runtime Environment is already defined in the BuilderContext"
    case GeneralName(InvalidConfig) => "There's one or more errors in your config file:\n\n%errors%\n\nTo learn more about Builder's configuration, please go to https://builder.dev/config/"
    case GeneralName(LibImportedFromTheConfig) => "Error while loading Builder's configuration.\nYou probably imported @nomiclabs/builder instead of @nomiclabs/builder/config"
    case GeneralName(UserConfigModified) => "Error while loading Builder's configuration.\nYou or one of your plugins is trying to modify the userConfig.%path% value from a config extender"
    case GeneralName(InitInsideProject) => "Builder project file was detected: '%clashingFile%'. Move the file or use an empty directory."
    // NETWORK
    case NetworkName(ConfigNotFound) => "Network %network% doesn't exist"
    case NetworkName(InvalidGlobalChainId) => "Builder was set to use chain id %configChainId%, but connected to a chain with id %connectionChainId%."
    case NetworkName(DeprecatedInvalidTxChainId) => "Trying to send a tx with chain id %txChainId%, but Builder is connected to a chain with id %chainId%."
    case NetworkName(EthsignMissingDataParam) => "Missing \"data\" param when calling eth_sign."
    case NetworkName(NotLocalAccount) => "Account %account% is not managed by the node you are connected to."
    case NetworkName(MissingTxParamToSignLocally) => "Missing param %param% from a tx being signed locally."
    case NetworkName(NoRemoteAccountAvailable) => "No local account was set and there are accounts in the remote node."
    case NetworkName(InvalidHdPath) => "HD path %path% is invalid. Read about BIP32 to know about the valid forms."
    case NetworkName(InvalidRpcQuantityValue) => "Received invalid value `%value%` from/to the node's JSON-RPC, but a Quantity was expected."
    case NetworkName(NodeIsNotRunning) => "Cannot connect to the network %network%.\nPlease make sure your node is running, and check your internet connection and networks config"
    case NetworkName(NetworkTimeout) => "Network connection timed-out.\nPlease check your internet connection and networks config"
    case NetworkName(InvalidJsonResponse) => "Invalid JSON-RPC response received: %response%"
    case NetworkName(CantDeriveKey) => "Cannot derive key %path% from mnemonic '%mnemonic%.\nTry using another mnemonic or deriving less keys."
    // TASK_DEFINITIONS
    case TaskDefinitionName(ParamAfterVariadic) => "Could not set positional param %paramName% for task %taskName% because there is already a variadic positional param and it has to be the last positional one."
    case TaskDefinitionName(ParamAlreadyDefined) => "Could not set param %paramName% for task %taskName% because its name is already used."
    case TaskDefinitionName(ParamClashesWithBuilderParam) => "Could not set param %paramName% for task %taskName% because its name is used as a param for Builder."
    case TaskDefinitionName(MandatoryParamAfterOptional) => "Could not set param %paramName% for task %taskName% because it is mandatory and it was added after an optional positional param."
    case TaskDefinitionName(OverrideNoParams) => "Redefinition of task %taskName% failed. You can't change param definitions in an overridden task."
    case TaskDefinitionName(OverrideNoMandatoryParams) => "Redefinition of task %taskName% failed. Unsupported operation adding mandatory (non optional) param definitions in an overridden task."
    case TaskDefinitionName(OverrideNoPositionalParams) => "Redefinition of task %taskName% failed. Unsupported operation adding positional param definitions in an overridden task."
    case TaskDefinitionName(OverrideNoVariadicParams) => "Redefinition of task %taskName% failed. Unsupported operation adding variadic param definitions in an overridden task."
    case TaskDefinitionName(ActionNotSet) => "No action set for task %taskName%."
    case TaskDefinitionName(RunsuperNotAvailable) => "Tried to call runSuper from a non-overridden definition of task %taskName%"
    case TaskDefinitionName(DefaultValueWrongType) => "Default value for param %paramName% of task %taskName% doesn't match the default one, try specifying it."
    case TaskDefinitionName(DefaultInMandatoryParam) => "Default value for param %paramName% of task %taskName% shouldn't be set."
    case TaskDefinitionName(InvalidParamNameCasing) => "Invalid param name %paramName% in task %taskName%. Param names must be camelCase."
    // ARGUMENTS
    case ArgumentName(InvalidEnvVarValue) => "Invalid environment variable %varName%'s value: %value%"
    case ArgumentName(InvalidValueForType) => "Invalid value %value% for argument %name% of type %type%"
    case ArgumentName(InvalidInputFile) => "Invalid argument %name%: File %value% doesn't exist or is not a readable file."
    case ArgumentName(UnrecognizedTask) => "Unrecognized task %task%. Try running help task to get a list of possible tasks."
    case ArgumentName(UnrecognizedCommandLineArg) => "Unrecognised command line argument %argument%.\nNote that task arguments must come after the task name."
    case ArgumentName(UnrecognizedParamName) => "Unrecognized param %param%"
    case ArgumentName(MissingTaskArgument) => "Missing task argument %param%"
    case ArgumentName(MissingPositionalArg) => "Missing positional argument %param%"
    case ArgumentName(UnrecognizedPositionalArg) => "Unrecognized positional argument %argument%"
    case ArgumentName(RepeatedParam) => "Repeated parameter %param%"
    case ArgumentName(ParamNameInvalidCasing) => "Invalid param %param%. Command line params must be lowercase."
    case ArgumentName(InvalidJsonArgument) => "Error parsing JSON value for argument %param%: %error%"
    // PLUGINS
    case PluginName(NotInstalled) => "Plugin %plugin% is not installed.\n%extraMessage%Please run: npm install --save-dev%extraFlags% %plugin%"
    case PluginName(MissingDependency) => "Plugin %plugin% requires %dependency% to be installed.\n%extraMessage%Please run: npm install --save-dev%extraFlags% \"%dependency%@%versionSpec%\""
    case PluginName(DependencyVersionMismatch) => "Plugin %plugin% requires %dependency% version %versionSpec% but got %installedVersion%.\n%extraMessage%If you haven't installed %dependency% manually, please run: npm install --save-dev%extraFlags% \"%dependency%@%versionSpec%\"\nIf you have installed %dependency% yourself, please reinstall it with a valid version."
    case PluginName(OldStyleImportDetected) => "You are trying to load %pluginNameText% with a require or import statement.\nPlease replace it with a call to usePlugin(\"%pluginNameCode%\")."
  }

  /** The error's title. */
  function Title(n: ErrorName): string
  {
    match n
    // GENERAL
    case GeneralName(NotInsideProject) => "You are not inside a Builder project"
    case GeneralName(InvalidNodeVersion) => "Unsupported Node.js"
    case GeneralName(UnsupportedOperation) => "Unsupported operation"
    case GeneralName(ContextAlreadyCreated) => "Builder was already initialized"
    case GeneralName(ContextNotCreated) => "Builder wasn't initialized"
    case GeneralName(ContextBreNotDefined) => "Builder Runtime Environment not created"
    case GeneralName(ContextBreAlreadyDefined) => "Tried to create the Builder Runtime Environment twice"
    case GeneralName(InvalidConfig) => "Invalid Builder config"
    case GeneralName(LibImportedFromTheConfig) => "Failed to load config file"
    case GeneralName(UserConfigModified) => "Attempted to modify the user's config"
    case GeneralName(InitInsideProject) => "Directory contains a builder file"
    // NETWORK
    case NetworkName(ConfigNotFound) => "Selected network doesn't exist"
    case NetworkName(InvalidGlobalChainId) => "Connected to the wrong network"
    case NetworkName(DeprecatedInvalidTxChainId) => "Incorrectly send chainId in a transaction"
    case NetworkName(EthsignMissingDataParam) => "Missing `data` param when calling eth_sign."
    case NetworkName(NotLocalAccount) => "Unrecognized account"
    case NetworkName(MissingTxParamToSignLocally) => "Missing transaction parameter"
    case NetworkName(NoRemoteAccountAvailable) => "No remote accounts available"
    case NetworkName(InvalidHdPath) => "Invalid HD path"
    case NetworkName(InvalidRpcQuantityValue) => "Invalid JSON-RPC value"
    case NetworkName(NodeIsNotRunning) => "Cannot connect to the network"
    case NetworkName(NetworkTimeout) => "Network timeout"
    case NetworkName(InvalidJsonResponse) => "Invalid JSON-RPC response"
    case NetworkName(CantDeriveKey) => "Could not derive an HD key"
    // TASK_DEFINITIONS
    case TaskDefinitionName(ParamAfterVariadic) => "Could not add positional parameter"
    case TaskDefinitionName(ParamAlreadyDefined) => "Repeated param name"
    case TaskDefinitionName(ParamClashesWithBuilderParam) => "Builder and task param names clash"
    case TaskDefinitionName(MandatoryParamAfterOptional) => "Optional param followed by a required one"
    case TaskDefinitionName(OverrideNoParams) => "Attempted to add params to an overridden task"
    case TaskDefinitionName(OverrideNoMandatoryParams) => "Attempted to add mandatory params to an overridden task"
    case TaskDefinitionName(OverrideNoPositionalParams) => "Attempted to add positional params to an overridden task"
    case TaskDefinitionName(OverrideNoVariadicParams) => "Attempted to add variadic params to an overridden task"
    case TaskDefinitionName(ActionNotSet) => "Tried to run task without an action"
    case TaskDefinitionName(RunsuperNotAvailable) => "`runSuper` not available"
    case TaskDefinitionName(DefaultValueWrongType) => "Default value has incorrect type"
    case TaskDefinitionName(DefaultInMandatoryParam) => "Required parameter has a default value"
    case TaskDefinitionName(InvalidParamNameCasing) => "Invalid casing in parameter name"
    // ARGUMENTS
    case ArgumentName(InvalidEnvVarValue) => "Invalid environment variable value"
    case ArgumentName(InvalidValueForType) => "Invalid argument type"
    case ArgumentName(InvalidInputFile) => "Invalid file argument"
    case ArgumentName(UnrecognizedTask) => "Unrecognized task"
    case ArgumentName(UnrecognizedCommandLineArg) => "Unrecognized command line argument"
    case ArgumentName(UnrecognizedParamName) => "Unrecognized param"
    case ArgumentName(MissingTaskArgument) => "Missing task argument"
    case ArgumentName(MissingPositionalArg) => "Missing task positional argument"
    case ArgumentName(UnrecognizedPositionalArg) => "Unrecognized task positional argument"
    case ArgumentName(RepeatedParam) => "Repeated task parameter"
    case ArgumentName(ParamNameInvalidCasing) => "Invalid casing in command line parameter"
    case ArgumentName(InvalidJsonArgument) => "Invalid JSON parameter"
    // PLUGINS
    case PluginName(NotInstalled) => "Plugin not installed"
    case PluginName(MissingDependency) => "Plugin dependencies not installed"
    case PluginName(DependencyVersionMismatch) => "Plugin dependencies's version mismatch"
    case PluginName(OldStyleImportDetected) => "Importing a plugin with `require`"
  }

  const GeneralErrors: seq<ErrorName> := [
    GeneralName(NotInsideProject),
    GeneralName(InvalidNodeVersion),
    GeneralName(UnsupportedOperation),
    GeneralName(ContextAlreadyCreated),
    GeneralName(ContextNotCreated),
    GeneralName(ContextBreNotDefined),
    GeneralName(ContextBreAlreadyDefined),
    GeneralName(InvalidConfig),
    GeneralName(LibImportedFromTheConfig),
    GeneralName(UserConfigModified),
    GeneralName(InitInsideProject)
  ]

  const NetworkErrors: seq<ErrorName> := [
    NetworkName(ConfigNotFound),
    NetworkName(InvalidGlobalChainId),
    NetworkName(DeprecatedInvalidTxChainId),
    NetworkName(EthsignMissingDataParam),
    NetworkName(NotLocalAccount),
    NetworkName(MissingTxParamToSignLocally),
    NetworkName(NoRemoteAccountAvailable),
    NetworkName(InvalidHdPath),
    NetworkName(InvalidRpcQuantityValue),
    NetworkName(NodeIsNotRunning),
    NetworkName(NetworkTimeout),
    NetworkName(InvalidJsonResponse),
    NetworkName(CantDeriveKey)
  ]

  /** Listed in the source's order: 210 to 212 come before 205 to 209. */
  const TaskDefinitionErrors: seq<ErrorName> := [
    TaskDefinitionName(ParamAfterVariadic),
    TaskDefinitionName(ParamAlreadyDefined),
    TaskDefinitionName(ParamClashesWithBuilderParam),
    TaskDefinitionName(MandatoryParamAfterOptional),
    TaskDefinitionName(OverrideNoParams),
    TaskDefinitionName(OverrideNoMandatoryParams),
    TaskDefinitionName(OverrideNoPositionalParams),
    TaskDefinitionName(OverrideNoVariadicParams),
    TaskDefinitionName(ActionNotSet),
    TaskDefinitionName(RunsuperNotAvailable),
    TaskDefinitionName(DefaultValueWrongType),
    TaskDefinitionName(DefaultInMandatoryParam),
    TaskDefinitionName(InvalidParamNameCasing)
  ]

  const ArgumentErrors: seq<ErrorName> := [
    ArgumentName(InvalidEnvVarValue),
    ArgumentName(InvalidValueForType),
    ArgumentName(InvalidInputFile),
    ArgumentName(UnrecognizedTask),
    ArgumentName(UnrecognizedCommandLineArg),
    ArgumentName(UnrecognizedParamName),
    ArgumentName(MissingTaskArgument),
    ArgumentName(MissingPositionalArg),
    ArgumentName(UnrecognizedPositionalArg),
    ArgumentName(RepeatedParam),
    ArgumentName(ParamNameInvalidCasing),
    ArgumentName(InvalidJsonArgument)
  ]

  const PluginErrors: seq<ErrorName> := [
    PluginName(NotInstalled),
    PluginName(MissingDependency),
    PluginName(DependencyVersionMismatch),
    PluginName(OldStyleImportDetected)
  ]

  /** The category whose descriptor object declares a key. */
  function CategoryOf(n: ErrorName): Category {
    match n
    case GeneralName(_) => General
    case NetworkName(_) => Network
    case TaskDefinitionName(_) => TaskDefinitions
    case ArgumentName(_) => Arguments
    case PluginName(_) => Plugins
  }

  /** The descriptor an error name stands for. */
  function Descriptor(n: ErrorName): ErrorDescriptor {
    ErrorDescriptor(Number(n), Message(n), Title(n))
  }

  /** The descriptor table, keyed by the same categories as the range table. */
  const Errors: map<Category, seq<ErrorName>> := map[
    General := GeneralErrors,
    Network := NetworkErrors,
    TaskDefinitions := TaskDefinitionErrors,
    Arguments := ArgumentErrors,
    Plugins := PluginErrors
  ]

  // ---------------------------------------------------------------------------
  // Numbering invariants, stated for any pair of tables

  /** Both tables have exactly the same categories. */
  predicate SameCategories(ranges: map<Category, CategoryRange>, errors: map<Category, seq<ErrorName>>) {
    ranges.Keys == errors.Keys
  }

  /** Every range is a non-empty interval. */
  predicate RangesWellFormed(ranges: map<Category, CategoryRange>) {
    forall c :: c in ranges ==> ranges[c].min <= ranges[c].max
  }

  predicate Disjoint(a: CategoryRange, b: CategoryRange) {
    a.max < b.min || b.max < a.min
  }

  /** No number belongs to the ranges of two different categories. */
  predicate RangesDisjoint(ranges: map<Category, CategoryRange>) {
    forall c1, c2 :: c1 in ranges && c2 in ranges && c1 != c2 ==> Disjoint(ranges[c1], ranges[c2])
  }

  predicate InRange(number: nat, r: CategoryRange) {
    r.min <= number <= r.max
  }

  // The predicates below take the numbering of the entries as a parameter `num`,
  // so that they speak of any descriptor table, including one in which two
  // different keys share a number. The literal catalogue uses `Number`.

  /** Every entry's number lies in the range of the category it is listed under. */
  predicate NumbersInRange(ranges: map<Category, CategoryRange>, errors: map<Category, seq<ErrorName>>, num: ErrorName -> nat) {
    forall c, i :: c in errors && 0 <= i < |errors[c]| ==>
      c in ranges && InRange(num(errors[c][i]), ranges[c])
  }

  /** Within one category's list, no number is used twice. */
  predicate NumbersDistinct(s: seq<ErrorName>, num: ErrorName -> nat) {
    forall i, j :: 0 <= i < j < |s| ==> num(s[i]) != num(s[j])
  }

  /** No two entries of the whole table, in the same category or not, share a number. */
  predicate NumbersGloballyUnique(errors: map<Category, seq<ErrorName>>, num: ErrorName -> nat) {
    forall c1, i, c2, j ::
      c1 in errors && c2 in errors && 0 <= i < |errors[c1]| && 0 <= j < |errors[c2]| && (c1 != c2 || i != j) ==>
        num(errors[c1][i]) != num(errors[c2][j])
  }

  /** Every error key is listed once, under one category only. */
  predicate ListedOnce(errors: map<Category, seq<ErrorName>>) {
    forall c1, i, c2, j ::
      c1 in errors && c2 in errors && 0 <= i < |errors[c1]| && 0 <= j < |errors[c2]| && (c1 != c2 || i != j) ==>
        errors[c1][i] != errors[c2][j]
  }

  /** The numbering invariants of a pair of tables. */
  predicate ValidCatalogue(ranges: map<Category, CategoryRange>, errors: map<Category, seq<ErrorName>>, num: ErrorName -> nat) {
    && SameCategories(ranges, errors)
    && RangesWellFormed(ranges)
    && RangesDisjoint(ranges)
    && NumbersInRange(ranges, errors, num)
    && NumbersGloballyUnique(errors, num)
  }

  /**
   * For any tables and any numbering, disjoint ranges, numbers inside their
   * ranges and per-category distinctness give global uniqueness.
   */
  lemma GlobalUniquenessFromRanges(ranges: map<Category, CategoryRange>, errors: map<Category, seq<ErrorName>>, num: ErrorName -> nat)
    requires RangesDisjoint(ranges) && NumbersInRange(ranges, errors, num)
    requires forall c :: c in errors ==> NumbersDistinct(errors[c], num)
    ensures NumbersGloballyUnique(errors, num)
  {
    forall c1, i, c2, j |
      c1 in errors && c2 in errors && 0 <= i < |errors[c1]| && 0 <= j < |errors[c2]| && (c1 != c2 || i != j)
      ensures num(errors[c1][i]) != num(errors[c2][j])
    {
      if c1 == c2 {
        assert NumbersDistinct(errors[c1], num);
        if i > j {
          assert num(errors[c1][j]) != num(errors[c1][i]);
        }
      } else {
        assert InRange(num(errors[c1][i]), ranges[c1]);
        assert InRange(num(errors[c2][j]), ranges[c2]);
        assert Disjoint(ranges[c1], ranges[c2]);
      }
    }
  }

  /** Disjoint ranges are needed: overlapping ranges let two categories reuse a number. */
  lemma OverlappingRangesAllowRepeats()
    ensures var ranges := map[General := CategoryRange(0, 99, ""), Network := CategoryRange(0, 199, "")];
            var errors := map[General := [GeneralName(NotInsideProject)], Network := [NetworkName(ConfigNotFound)]];
            var num := (n: ErrorName) => 1;
            NumbersInRange(ranges, errors, num) && (forall c :: c in errors ==> NumbersDistinct(errors[c], num))
            && !NumbersGloballyUnique(errors, num)
  {
    var errors := map[General := [GeneralName(NotInsideProject)], Network := [NetworkName(ConfigNotFound)]];
    var num := (n: ErrorName) => 1;
    assert num(errors[General][0]) == num(errors[Network][0]);
  }

  // ---------------------------------------------------------------------------
  // The invariants hold of the literal tables

  lemma CatalogueCategoriesMatch()
    ensures SameCategories(ErrorRanges, Errors)
    ensures forall c: Category :: c in ErrorRanges && c in Errors
  {
    forall c: Category ensures c in ErrorRanges && c in Errors {
      match c
      case General =>
      case Network =>
      case TaskDefinitions =>
      case Arguments =>
      case Plugins =>
    }
  }

  lemma CatalogueRangesWellFormed()
    ensures RangesWellFormed(ErrorRanges)
  {
  }

  lemma CatalogueRangesDisjoint()
    ensures RangesDisjoint(ErrorRanges)
  {
  }

  // Each category's numbers, position by position.

  /** GENERAL is numbered 1 to 11, in order. */
  lemma GeneralNumbers()
    ensures forall i :: 0 <= i < |GeneralErrors| ==> Number(GeneralErrors[i]) == 1 + i
  {
  }

  /** NETWORK is numbered 100 to 112, in order. */
  lemma NetworkNumbers()
    ensures forall i :: 0 <= i < |NetworkErrors| ==> Number(NetworkErrors[i]) == 100 + i
  {
  }

  /** TASK_DEFINITIONS lists 200 to 204, then 210 to 212, then 205 to 209. */
  lemma TaskDefinitionNumbers()
    ensures forall i :: 0 <= i < |TaskDefinitionErrors| ==>
      Number(TaskDefinitionErrors[i]) == (if i < 5 then 200 + i else if i < 8 then 205 + i else 197 + i)
  {
  }

  /** ARGUMENTS is numbered 300 to 311, in order. */
  lemma ArgumentNumbers()
    ensures forall i :: 0 <= i < |ArgumentErrors| ==> Number(ArgumentErrors[i]) == 300 + i
  {
  }

  /** PLUGINS is numbered 800 to 803, in order. */
  lemma PluginNumbers()
    ensures forall i :: 0 <= i < |PluginErrors| ==> Number(PluginErrors[i]) == 800 + i
  {
  }

  lemma CatalogueNumbersInRange()
    ensures NumbersInRange(ErrorRanges, Errors, Number)
  {
    forall c, i | c in Errors && 0 <= i < |Errors[c]|
      ensures c in ErrorRanges && InRange(Number(Errors[c][i]), ErrorRanges[c])
    {
      match c
      case General => GeneralNumbers();
      case Network => NetworkNumbers();
      case TaskDefinitions => TaskDefinitionNumbers();
      case Arguments => ArgumentNumbers();
      case Plugins => PluginNumbers();
    }
  }

  /** A list numbered consecutively from `base` uses no number twice. */
  lemma ConsecutiveNumbersDistinct(s: seq<ErrorName>, num: ErrorName -> nat, base: nat)
    requires forall i :: 0 <= i < |s| ==> num(s[i]) == base + i
    ensures NumbersDistinct(s, num)
  {
  }

  /** TASK_DEFINITIONS, although listed out of numeric order, uses no number twice. */
  lemma TaskDefinitionNumbersDistinct()
    ensures NumbersDistinct(TaskDefinitionErrors, Number)
  {
    TaskDefinitionNumbers();
  }

  lemma CatalogueNumbersDistinctPerCategory()
    ensures forall c :: c in Errors ==> NumbersDistinct(Errors[c], Number)
  {
    forall c | c in Errors ensures NumbersDistinct(Errors[c], Number) {
      match c
      case General =>
        GeneralNumbers();
        ConsecutiveNumbersDistinct(GeneralErrors, Number, 1);
      case Network =>
        NetworkNumbers();
        ConsecutiveNumbersDistinct(NetworkErrors, Number, 100);
      case TaskDefinitions =>
        TaskDefinitionNumbersDistinct();
      case Arguments =>
        ArgumentNumbers();
        ConsecutiveNumbersDistinct(ArgumentErrors, Number, 300);
      case Plugins =>
        PluginNumbers();
        ConsecutiveNumbersDistinct(PluginErrors, Number, 800);
    }
  }

  lemma CatalogueNumbersGloballyUnique()
    ensures NumbersGloballyUnique(Errors, Number)
  {
    CatalogueRangesDisjoint();
    CatalogueNumbersInRange();
    CatalogueNumbersDistinctPerCategory();
    GlobalUniquenessFromRanges(ErrorRanges, Errors, Number);
  }

  /** No error key of the literal table is listed twice, in one category or across two. */
  lemma CatalogueListedOnce()
    ensures ListedOnce(Errors)
  {
    CatalogueNumbersGloballyUnique();
  }

  /** The literal tables keep every invariant, and list every key once. */
  lemma CatalogueValid()
    ensures ValidCatalogue(ErrorRanges, Errors, Number)
    ensures ListedOnce(Errors)
  {
    CatalogueCategoriesMatch();
    CatalogueRangesWellFormed();
    CatalogueRangesDisjoint();
    CatalogueNumbersInRange();
    CatalogueNumbersGloballyUnique();
    CatalogueListedOnce();
  }

  /** Every GENERAL key is listed under GENERAL. */
  lemma GeneralKeysListed(e: GeneralError)
    ensures GeneralName(e) in GeneralErrors
  {
  }

  /** Every NETWORK key is listed under NETWORK. */
  lemma NetworkKeysListed(e: NetworkError)
    ensures NetworkName(e) in NetworkErrors
  {
  }

  /** Every TASK_DEFINITIONS key is listed under TASK_DEFINITIONS. */
  lemma TaskDefinitionKeysListed(e: TaskDefinitionError)
    ensures TaskDefinitionName(e) in TaskDefinitionErrors
  {
  }

  /** Every ARGUMENTS key is listed under ARGUMENTS. */
  lemma ArgumentKeysListed(e: ArgumentError)
    ensures ArgumentName(e) in ArgumentErrors
  {
  }

  /** Every PLUGINS key is listed under PLUGINS. */
  lemma PluginKeysListed(e: PluginError)
    ensures PluginName(e) in PluginErrors
  {
  }

  /** Every entry of the literal table is listed under the category that declares it. */
  lemma CatalogueDeclaredUnder()
    ensures forall c, i :: c in Errors && 0 <= i < |Errors[c]| ==> CategoryOf(Errors[c][i]) == c
  {
  }

  /** Every error key is listed under the category that declares it, and under no other. */
  lemma EveryNameListed(n: ErrorName, c: Category)
    ensures c in Errors
    ensures n in Errors[c] <==> c == CategoryOf(n)
  {
    CatalogueCategoriesMatch();
    if n in Errors[c] {
      var i :| 0 <= i < |Errors[c]| && Errors[c][i] == n;
      CatalogueDeclaredUnder();
    }
    match n
    case GeneralName(e) => GeneralKeysListed(e);
    case NetworkName(e) => NetworkKeysListed(e);
    case TaskDefinitionName(e) => TaskDefinitionKeysListed(e);
    case ArgumentName(e) => ArgumentKeysListed(e);
    case PluginName(e) => PluginKeysListed(e);
  }

  /** No two entries of the catalogue, in the same category or not, have the same error code. */
  lemma CatalogueCodesUnique(c1: Category, i: nat, c2: Category, j: nat)
    requires c1 in Errors && i < |Errors[c1]| && c2 in Errors && j < |Errors[c2]|
    requires c1 != c2 || i != j
    ensures GetErrorCode(Descriptor(Errors[c1][i])) != GetErrorCode(Descriptor(Errors[c2][j]))
  {
    CatalogueNumbersGloballyUnique();
    ErrorCodeInjective(Descriptor(Errors[c1][i]), Descriptor(Errors[c2][j]));
  }

  /** INVALID_CONFIG is the eighth general error, with number 8 and code "ABLDR8". */
  lemma InvalidConfigCode()
    ensures GeneralErrors[7] == GeneralName(InvalidConfig)
    ensures GetErrorCode(Descriptor(GeneralErrors[7])) == "ABLDR8"
  {
    NumberEightCode(Descriptor(GeneralErrors[7]));
  }

  /** Any descriptor numbered 8 has the code "ABLDR8". */
  lemma NumberEightCode(d: ErrorDescriptor)
    requires d.number == 8
    ensures GetErrorCode(d) == "ABLDR8"
  {
    assert NatToString(8) == "8";
    assert ErrorPrefix + "8" == "ABLDR8";
  }
}
