/** Energy-scoring configuration of a client (client/config/energy.go): one provider is
    selected by key, its sub-configuration is validated field by field, and a valid
    configuration is finalized by attaching the score provider built from it.

    Nil-able Go references become nullable class references: a nil sub-configuration is `null`, and a
    copy is a freshly allocated object. An error is the sequence of its messages; the empty
    sequence is Go's nil error. */
module EnergyConfigs {
  import opened Wrappers

  // ---------------------------------------------------------------------------
  // Provider keys

  const AWS: string := "aws"
  const GCP: string := "gcp"
  const AZ: string := "azure"
  const EM: string := "electricity-map"
  const CI: string := "carbon-intensity"

  /** The keys `Validate` and `Finalize` recognise. */
  predicate KnownProvider(key: string)
  {
    key == AWS || key == GCP || key == AZ || key == CI || key == EM
  }

  // ---------------------------------------------------------------------------
  // Error messages

  const ConfigNil: string := "invalid energy config: config is nil"

  function NotRecognized(key: string): string
  {
    "invalid energy config: provider " + key + " not recognized"
  }

  const AWSNotConfigured: string := "invalid energy config: AWS specified but not configured"
  const AccessKeyIDRequired: string := "invalid energy config: access_key_id required"
  // The misspelling is the message the client reports.
  const SecretAccessKeyRequired: string := "invalid energy config: secret_acces_key required"
  const SessionTokenRequired: string := "invalid energy config: session_token required"

  const GCPNotConfigured: string := "invalid energy config: GCP specified but not configured"
  const ServiceAccountKeyRequired: string := "invalid energy config: service_account_key required"

  const AzureNotConfigured: string := "invalid energy config: Azure specified but not configured"
  const ClientIDRequired: string := "invalid energy config: client_id required"
  const ClientSecretRequired: string := "invalid energy config: client_secret required"
  const TenantIDRequired: string := "invalid energy config: tenant_id required"

  const CINotConfigured: string := "invalid energy config: Carbon Intensity specified but not configured"
  const APIUrlRequired: string := "invalid energy config: api_url required"

  const EMNotConfigured: string := "invalid energy config: Electricity Maps specified but not configured"
  const APIKeyRequired: string := "invalid energy config: api_key required"

  /** `errs` lists some of the messages of `order`, each at most once, in the order of `order`. */
  predicate InOrder(errs: seq<string>, order: seq<string>)
    decreases |order|
  {
    if errs == [] then true
    else if order == [] then false
    else if errs[0] == order[0] then InOrder(errs[1..], order[1..])
    else InOrder(errs, order[1..])
  }

  /** The message `m` when `missing` holds, nothing otherwise. */
  function Require(missing: bool, m: string): seq<string>
  {
    if missing then [m] else []
  }

  /** Putting an optional message in front keeps the messages in order. */
  lemma InOrderRequire(missing: bool, m: string, rest: seq<string>, order: seq<string>)
    requires m !in rest && InOrder(rest, order)
    ensures InOrder(Require(missing, m) + rest, [m] + order)
  {
    if missing {
      assert (Require(missing, m) + rest)[1..] == rest;
    } else {
      assert Require(missing, m) + rest == rest;
      if rest != [] {
        assert ([m] + order)[1..] == order;
      }
    }
  }

  // ---------------------------------------------------------------------------
  // Sub-configurations

  class AWSConfig {
    var accessKeyID: string
    var secretAccessKey: string
    var sessionToken: string

    constructor (accessKeyID: string, secretAccessKey: string, sessionToken: string)
      ensures this.accessKeyID == accessKeyID && this.secretAccessKey == secretAccessKey
      ensures this.sessionToken == sessionToken
    {
      this.accessKeyID := accessKeyID;
      this.secretAccessKey := secretAccessKey;
      this.sessionToken := sessionToken;
    }
  }

  class GCPConfig {
    var serviceAccountKey: string

    constructor (serviceAccountKey: string)
      ensures this.serviceAccountKey == serviceAccountKey
    {
      this.serviceAccountKey := serviceAccountKey;
    }
  }

  class AzureConfig {
    var clientID: string
    var clientSecret: string
    var tenantID: string

    constructor (clientID: string, clientSecret: string, tenantID: string)
      ensures this.clientID == clientID && this.clientSecret == clientSecret && this.tenantID == tenantID
    {
      this.clientID := clientID;
      this.clientSecret := clientSecret;
      this.tenantID := tenantID;
    }
  }

  class CarbonIntensityConfig {
    var apiUrl: string

    constructor (apiUrl: string)
      ensures this.apiUrl == apiUrl
    {
      this.apiUrl := apiUrl;
    }
  }

  class ElectricityMapConfig {
    var apiKey: string
    var apiUrl: string

    constructor (apiKey: string, apiUrl: string)
      ensures this.apiKey == apiKey && this.apiUrl == apiUrl
    {
      this.apiKey := apiKey;
      this.apiUrl := apiUrl;
    }
  }

  /** Two sub-configuration references are both nil or hold equal fields. */
  ghost predicate SameAWS(a: AWSConfig?, b: AWSConfig?)
    reads a, b
  {
    (a == null <==> b == null)
    && (a != null && b != null ==>
          a.accessKeyID == b.accessKeyID && a.secretAccessKey == b.secretAccessKey
          && a.sessionToken == b.sessionToken)
  }

  ghost predicate SameGCP(a: GCPConfig?, b: GCPConfig?)
    reads a, b
  {
    (a == null <==> b == null) && (a != null && b != null ==> a.serviceAccountKey == b.serviceAccountKey)
  }

  ghost predicate SameAzure(a: AzureConfig?, b: AzureConfig?)
    reads a, b
  {
    (a == null <==> b == null)
    && (a != null && b != null ==>
          a.clientID == b.clientID && a.clientSecret == b.clientSecret && a.tenantID == b.tenantID)
  }

  ghost predicate SameCI(a: CarbonIntensityConfig?, b: CarbonIntensityConfig?)
    reads a, b
  {
    (a == null <==> b == null) && (a != null && b != null ==> a.apiUrl == b.apiUrl)
  }

  ghost predicate SameEM(a: ElectricityMapConfig?, b: ElectricityMapConfig?)
    reads a, b
  {
    (a == null <==> b == null)
    && (a != null && b != null ==> a.apiKey == b.apiKey && a.apiUrl == b.apiUrl)
  }

  // ---------------------------------------------------------------------------
  // Sub-configuration validation: one message per empty required field, in field order

  function ValidateAWS(aws: AWSConfig?): (errs: seq<string>)
    reads aws
    ensures aws == null ==> errs == [AWSNotConfigured]
    ensures aws != null ==>
      (errs == [] <==> aws.accessKeyID != "" && aws.secretAccessKey != "" && aws.sessionToken != "")
      && (AccessKeyIDRequired in errs <==> aws.accessKeyID == "")
      && (SecretAccessKeyRequired in errs <==> aws.secretAccessKey == "")
      && (SessionTokenRequired in errs <==> aws.sessionToken == "")
      && InOrder(errs, [AccessKeyIDRequired, SecretAccessKeyRequired, SessionTokenRequired])
  {
    if aws == null then [AWSNotConfigured]
    else
      var last := Require(aws.sessionToken == "", SessionTokenRequired);
      var rest := Require(aws.secretAccessKey == "", SecretAccessKeyRequired) + last;
      InOrderRequire(aws.sessionToken == "", SessionTokenRequired, [], []);
      InOrderRequire(aws.secretAccessKey == "", SecretAccessKeyRequired, last, [SessionTokenRequired]);
      InOrderRequire(aws.accessKeyID == "", AccessKeyIDRequired, rest, [SecretAccessKeyRequired, SessionTokenRequired]);
      Require(aws.accessKeyID == "", AccessKeyIDRequired) + rest
  }

  function ValidateGCP(gcp: GCPConfig?): (errs: seq<string>)
    reads gcp
    ensures gcp == null ==> errs == [GCPNotConfigured]
    ensures gcp != null ==> (errs == [] <==> gcp.serviceAccountKey != "")
    ensures gcp != null && errs != [] ==> errs == [ServiceAccountKeyRequired]
  {
    if gcp == null then [GCPNotConfigured]
    else if gcp.serviceAccountKey == "" then [ServiceAccountKeyRequired]
    else []
  }

  function ValidateAzure(az: AzureConfig?): (errs: seq<string>)
    reads az
    ensures az == null ==> errs == [AzureNotConfigured]
    ensures az != null ==>
      (errs == [] <==> az.clientID != "" && az.clientSecret != "" && az.tenantID != "")
      && (ClientIDRequired in errs <==> az.clientID == "")
      && (ClientSecretRequired in errs <==> az.clientSecret == "")
      && (TenantIDRequired in errs <==> az.tenantID == "")
      && InOrder(errs, [ClientIDRequired, ClientSecretRequired, TenantIDRequired])
  {
    if az == null then [AzureNotConfigured]
    else
      var last := Require(az.tenantID == "", TenantIDRequired);
      var rest := Require(az.clientSecret == "", ClientSecretRequired) + last;
      InOrderRequire(az.tenantID == "", TenantIDRequired, [], []);
      InOrderRequire(az.clientSecret == "", ClientSecretRequired, last, [TenantIDRequired]);
      InOrderRequire(az.clientID == "", ClientIDRequired, rest, [ClientSecretRequired, TenantIDRequired]);
      Require(az.clientID == "", ClientIDRequired) + rest
  }

  function ValidateCI(ci: CarbonIntensityConfig?): (errs: seq<string>)
    reads ci
    ensures ci == null ==> errs == [CINotConfigured]
    ensures ci != null ==> (errs == [] <==> ci.apiUrl != "")
    ensures ci != null && errs != [] ==> errs == [APIUrlRequired]
  {
    if ci == null then [CINotConfigured]
    else if ci.apiUrl == "" then [APIUrlRequired]
    else []
  }

  function ValidateEM(em: ElectricityMapConfig?): (errs: seq<string>)
    reads em
    ensures em == null ==> errs == [EMNotConfigured]
    ensures em != null ==>
      (errs == [] <==> em.apiKey != "" && em.apiUrl != "")
      && (APIKeyRequired in errs <==> em.apiKey == "")
      && (APIUrlRequired in errs <==> em.apiUrl == "")
      && InOrder(errs, [APIKeyRequired, APIUrlRequired])
  {
    if em == null then [EMNotConfigured]
    else
      var last := Require(em.apiUrl == "", APIUrlRequired);
      InOrderRequire(em.apiUrl == "", APIUrlRequired, [], []);
      InOrderRequire(em.apiKey == "", APIKeyRequired, last, [APIUrlRequired]);
      Require(em.apiKey == "", APIKeyRequired) + last
  }

  // ---------------------------------------------------------------------------
  // Sub-configuration copies: nil stays nil, anything else becomes a new object

  method CopyAWS(aws: AWSConfig?) returns (n: AWSConfig?)
    ensures SameAWS(aws, n) && (n != null ==> fresh(n))
  {
    n := null;
    if aws != null {
      n := new AWSConfig(aws.accessKeyID, aws.secretAccessKey, aws.sessionToken);
    }
  }

  method CopyGCP(gcp: GCPConfig?) returns (n: GCPConfig?)
    ensures SameGCP(gcp, n) && (n != null ==> fresh(n))
  {
    n := null;
    if gcp != null {
      n := new GCPConfig(gcp.serviceAccountKey);
    }
  }

  method CopyAzure(az: AzureConfig?) returns (n: AzureConfig?)
    ensures SameAzure(az, n) && (n != null ==> fresh(n))
  {
    n := null;
    if az != null {
      n := new AzureConfig(az.clientID, az.clientSecret, az.tenantID);
    }
  }

  method CopyCI(ci: CarbonIntensityConfig?) returns (n: CarbonIntensityConfig?)
    ensures SameCI(ci, n) && (n != null ==> fresh(n))
  {
    n := null;
    if ci != null {
      n := new CarbonIntensityConfig(ci.apiUrl);
    }
  }

  method CopyEM(em: ElectricityMapConfig?) returns (n: ElectricityMapConfig?)
    ensures SameEM(em, n) && (n != null ==> fresh(n))
  {
    n := null;
    if em != null {
      n := new ElectricityMapConfig(em.apiKey, em.apiUrl);
    }
  }

  // ---------------------------------------------------------------------------
  // Score providers

  /** The grid-intensity client that the carbon-intensity library builds; it is opaque
      here and known by a handle. */
  type GridClient = nat

  /** The library constructor for a carbon-intensity client, given the API URL. */
  type GridClientFactory = string -> Result<GridClient, string>

  /** The score provider attached by `Finalize`: the AWS, GCP, Azure and carbon-intensity
      providers keep the whole configuration, the Electricity Maps one only its
      sub-configuration. */
  datatype ScoreProvider =
    | AWSProvider(config: EnergyConfig)
    | GCPProvider(config: EnergyConfig)
    | AzureProvider(config: EnergyConfig)
    | CIProvider(config: EnergyConfig, client: GridClient)
    | EMProvider(em: ElectricityMapConfig)

  /** The provider key a score provider answers to. */
  function KeyOf(p: ScoreProvider): string
  {
    match p
    case AWSProvider(_) => AWS
    case GCPProvider(_) => GCP
    case AzureProvider(_) => AZ
    case CIProvider(_, _) => CI
    case EMProvider(_) => EM
  }

  // ---------------------------------------------------------------------------
  // The energy configuration

  class EnergyConfig {
    var region: string
    var providerKey: string
    var scoreProvider: Option<ScoreProvider>
    var awsConfig: AWSConfig?
    var gcpConfig: GCPConfig?
    var azureConfig: AzureConfig?
    var carbonIntensityConfig: CarbonIntensityConfig?
    var electricityMapConfig: ElectricityMapConfig?

    /** A configuration with a region and a provider key and nothing else. */
    constructor (region: string, providerKey: string)
      ensures this.region == region && this.providerKey == providerKey
      ensures scoreProvider == None
      ensures awsConfig == null && gcpConfig == null && azureConfig == null
      ensures carbonIntensityConfig == null && electricityMapConfig == null
    {
      this.region := region;
      this.providerKey := providerKey;
      scoreProvider := None;
      awsConfig := null;
      gcpConfig := null;
      azureConfig := null;
      carbonIntensityConfig := null;
      electricityMapConfig := null;
    }
  }

  /** The configuration object and the sub-configurations it points to. */
  ghost function Parts(ec: EnergyConfig?): set<object?>
    reads ec
  {
    if ec == null then {}
    else {ec as object?, ec.awsConfig, ec.gcpConfig, ec.azureConfig,
          ec.carbonIntensityConfig, ec.electricityMapConfig}
  }

  /** Reference definition of a valid configuration: the key names a provider whose
      sub-configuration is present with every required field filled in. */
  ghost predicate Complete(ec: EnergyConfig)
    reads Parts(ec)
  {
    var key := ec.providerKey;
    (key == AWS && ec.awsConfig != null && ec.awsConfig.accessKeyID != ""
       && ec.awsConfig.secretAccessKey != "" && ec.awsConfig.sessionToken != "")
    || (key == GCP && ec.gcpConfig != null && ec.gcpConfig.serviceAccountKey != "")
    || (key == AZ && ec.azureConfig != null && ec.azureConfig.clientID != ""
          && ec.azureConfig.clientSecret != "" && ec.azureConfig.tenantID != "")
    || (key == CI && ec.carbonIntensityConfig != null && ec.carbonIntensityConfig.apiUrl != "")
    || (key == EM && ec.electricityMapConfig != null && ec.electricityMapConfig.apiKey != ""
          && ec.electricityMapConfig.apiUrl != "")
  }

  /** EnergyConfig.Validate: dispatch on the provider key to the selected sub-configuration. */
  function Validate(ec: EnergyConfig?): (errs: seq<string>)
    reads Parts(ec)
    ensures ec == null ==> errs == [ConfigNil]
    ensures ec != null && !KnownProvider(ec.providerKey) ==> errs == [NotRecognized(ec.providerKey)]
    ensures errs == [] <==> ec != null && Complete(ec)
    ensures ec != null && ec.providerKey == AWS && ec.awsConfig == null ==> errs == [AWSNotConfigured]
    ensures ec != null && ec.providerKey == GCP && ec.gcpConfig == null ==> errs == [GCPNotConfigured]
    ensures ec != null && ec.providerKey == AZ && ec.azureConfig == null ==> errs == [AzureNotConfigured]
    ensures ec != null && ec.providerKey == CI && ec.carbonIntensityConfig == null ==> errs == [CINotConfigured]
    ensures ec != null && ec.providerKey == EM && ec.electricityMapConfig == null ==> errs == [EMNotConfigured]
  {
    if ec == null then [ConfigNil]
    else if ec.providerKey == AWS then ValidateAWS(ec.awsConfig)
    else if ec.providerKey == GCP then ValidateGCP(ec.gcpConfig)
    else if ec.providerKey == AZ then ValidateAzure(ec.azureConfig)
    else if ec.providerKey == CI then ValidateCI(ec.carbonIntensityConfig)
    else if ec.providerKey == EM then ValidateEM(ec.electricityMapConfig)
    else [NotRecognized(ec.providerKey)]
  }

  /** Two configurations select the same provider and agree on its sub-configuration;
      they may differ in everything else. */
  ghost predicate SameSelected(a: EnergyConfig, b: EnergyConfig)
    reads Parts(a), Parts(b)
  {
    a.providerKey == b.providerKey
    && (a.providerKey == AWS ==> SameAWS(a.awsConfig, b.awsConfig))
    && (a.providerKey == GCP ==> SameGCP(a.gcpConfig, b.gcpConfig))
    && (a.providerKey == AZ ==> SameAzure(a.azureConfig, b.azureConfig))
    && (a.providerKey == CI ==> SameCI(a.carbonIntensityConfig, b.carbonIntensityConfig))
    && (a.providerKey == EM ==> SameEM(a.electricityMapConfig, b.electricityMapConfig))
  }

  /** Validation looks only at the selected sub-configuration: the region, the score
      provider and the other sub-configurations do not change its outcome. */
  lemma ValidateIgnoresOthers(a: EnergyConfig, b: EnergyConfig)
    requires SameSelected(a, b)
    ensures Validate(a) == Validate(b)
  {
  }

  /** The provider built for a validated configuration (the factory `Finalize` picks).
      Only the carbon-intensity factory can fail: when the library rejects the API URL. */
  function ProviderFor(ec: EnergyConfig, newGridClient: GridClientFactory): (r: Result<ScoreProvider, string>)
    reads Parts(ec)
    requires Validate(ec) == []
    ensures r.Success? ==> KeyOf(r.value) == ec.providerKey
    ensures r.Success? && ec.providerKey != EM ==> r.value.config == ec
    ensures r.Success? && ec.providerKey == EM ==> r.value.em == ec.electricityMapConfig
    ensures r.Failure? <==>
      ec.providerKey == CI && newGridClient(ec.carbonIntensityConfig.apiUrl).Failure?
  {
    if ec.providerKey == AWS then Success(AWSProvider(ec))
    else if ec.providerKey == GCP then Success(GCPProvider(ec))
    else if ec.providerKey == AZ then Success(AzureProvider(ec))
    else if ec.providerKey == CI then
      match newGridClient(ec.carbonIntensityConfig.apiUrl)
      case Success(client) => Success(CIProvider(ec, client))
      case Failure(e) => Failure(e)
    else Success(EMProvider(ec.electricityMapConfig))
  }

  /** What `Finalize` does to a configuration: fail with the validation error, fail with
      the factory's error, or attach a provider. */
  ghost function FinalizeOutcome(ec: EnergyConfig, newGridClient: GridClientFactory): (r: Result<ScoreProvider, seq<string>>)
    reads Parts(ec)
    ensures r.Failure? ==> r.error != []
    ensures Validate(ec) != [] ==> r == Failure(Validate(ec))
    ensures r.Success? <==>
      Complete(ec) && (ec.providerKey == CI ==> newGridClient(ec.carbonIntensityConfig.apiUrl).Success?)
    ensures r.Success? ==> KeyOf(r.value) == ec.providerKey
    ensures r.Success? && ec.providerKey != EM ==> r.value.config == ec
    ensures r.Success? && ec.providerKey == EM ==> r.value.em == ec.electricityMapConfig
  {
    var errs := Validate(ec);
    if errs != [] then Failure(errs)
    else
      match ProviderFor(ec, newGridClient)
      case Success(p) => Success(p)
      case Failure(e) => Failure([e])
  }

  /** EnergyConfig.Finalize: validate, then attach the score provider; on any error the
      score provider is left as it was. */
  method Finalize(ec: EnergyConfig?, newGridClient: GridClientFactory) returns (errs: seq<string>)
    modifies ec
    ensures ec == null ==> errs == []
    ensures ec != null ==>
      ec.region == old(ec.region) && ec.providerKey == old(ec.providerKey)
      && ec.awsConfig == old(ec.awsConfig) && ec.gcpConfig == old(ec.gcpConfig)
      && ec.azureConfig == old(ec.azureConfig)
      && ec.carbonIntensityConfig == old(ec.carbonIntensityConfig)
      && ec.electricityMapConfig == old(ec.electricityMapConfig)
    ensures ec != null ==>
      Validate(ec) == old(Validate(ec))
      && FinalizeOutcome(ec, newGridClient) == old(FinalizeOutcome(ec, newGridClient))
    ensures ec != null ==>
      match old(FinalizeOutcome(ec, newGridClient))
      case Success(p) => errs == [] && ec.scoreProvider == Some(p)
      case Failure(e) => errs == e && ec.scoreProvider == old(ec.scoreProvider)
  {
    if ec == null {
      return [];
    }
    errs := Validate(ec);
    if errs != [] {
      return;
    }
    match ProviderFor(ec, newGridClient)
    case Success(p) =>
      ec.scoreProvider := Some(p);
    case Failure(e) =>
      errs := [e];
  }

  /** The sub-configuration copies of EnergyConfig.Copy. */
  method CopyParts(ec: EnergyConfig, nec: EnergyConfig)
    requires ec != nec
    requires nec.awsConfig == null && nec.gcpConfig == null && nec.azureConfig == null
    requires nec.carbonIntensityConfig == null && nec.electricityMapConfig == null
    modifies nec`awsConfig, nec`gcpConfig, nec`azureConfig, nec`carbonIntensityConfig, nec`electricityMapConfig
    ensures SameAWS(ec.awsConfig, nec.awsConfig) && SameGCP(ec.gcpConfig, nec.gcpConfig)
    ensures SameAzure(ec.azureConfig, nec.azureConfig)
    ensures SameCI(ec.carbonIntensityConfig, nec.carbonIntensityConfig)
    ensures SameEM(ec.electricityMapConfig, nec.electricityMapConfig)
    ensures nec.awsConfig != null ==> fresh(nec.awsConfig)
    ensures nec.gcpConfig != null ==> fresh(nec.gcpConfig)
    ensures nec.azureConfig != null ==> fresh(nec.azureConfig)
    ensures nec.carbonIntensityConfig != null ==> fresh(nec.carbonIntensityConfig)
    ensures nec.electricityMapConfig != null ==> fresh(nec.electricityMapConfig)
  {
    // The source copies only the sub-configurations that are set; copying a nil one gives nil.
    nec.awsConfig := CopyAWS(ec.awsConfig);
    nec.gcpConfig := CopyGCP(ec.gcpConfig);
    nec.azureConfig := CopyAzure(ec.azureConfig);
    nec.carbonIntensityConfig := CopyCI(ec.carbonIntensityConfig);
    nec.electricityMapConfig := CopyEM(ec.electricityMapConfig);
  }

  /** EnergyConfig.Copy: a new configuration with the same region and key and a fresh copy
      of each sub-configuration, finalized on its own (its error is dropped), so that its
      score provider refers to the copy and is absent when the copy does not finalize. */
  method Copy(ec: EnergyConfig?, newGridClient: GridClientFactory) returns (nec: EnergyConfig?)
    ensures ec == null <==> nec == null
    ensures ec != null && nec != null ==>
      fresh(nec) && nec.region == ec.region && nec.providerKey == ec.providerKey
      && SameAWS(ec.awsConfig, nec.awsConfig) && SameGCP(ec.gcpConfig, nec.gcpConfig)
      && SameAzure(ec.azureConfig, nec.azureConfig)
      && SameCI(ec.carbonIntensityConfig, nec.carbonIntensityConfig)
      && SameEM(ec.electricityMapConfig, nec.electricityMapConfig)
      && (nec.awsConfig != null ==> fresh(nec.awsConfig))
      && (nec.gcpConfig != null ==> fresh(nec.gcpConfig))
      && (nec.azureConfig != null ==> fresh(nec.azureConfig))
      && (nec.carbonIntensityConfig != null ==> fresh(nec.carbonIntensityConfig))
      && (nec.electricityMapConfig != null ==> fresh(nec.electricityMapConfig))
    ensures ec != null && nec != null ==>
      match FinalizeOutcome(nec, newGridClient)
      case Success(p) => nec.scoreProvider == Some(p)
      case Failure(_) => nec.scoreProvider == None
  {
    if ec == null {
      return null;
    }
    nec := new EnergyConfig(ec.region, ec.providerKey);
    CopyParts(ec, nec);
    var _ := Finalize(nec, newGridClient);
  }
}
