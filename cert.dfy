/**
 * pkg/controller/cert/rotator.go: the options of the certificate rotator,
 * their in-place defaulting, the conversion of webhook descriptions to the
 * rotator library's, and the configuration handed to that library.
 */
module Cert {
  import opened Wrappers

  const DefaultSecretName: string := "kinitiras-webhook-cert"
  const DefaultNamespace: string := "kinitiras-system"
  const DefaultCAName: string := "kinitiras-ca"
  const DefaultCAOrganization: string := "kinitiras"
  const DefaultServiceName: string := "kinitiras-webhook"
  const DefaultCertDir: string := "/tmp/k8s-webhook-server/serving-certs"

  /** WebhookType is a Go `int`; only the four declared values are meaningful. */
  type WebhookType = int

  const Validating: WebhookType := 0
  const Mutating: WebhookType := 1
  const CRDConversion: WebhookType := 2
  const APIService: WebhookType := 3

  predicate Supported(typ: WebhookType)
  {
    Validating <= typ <= APIService
  }

  datatype WebhookInfo = WebhookInfo(name: string, typ: WebhookType)

  /** The rotator library's webhook kinds and descriptions. */
  datatype RotatorWebhookType = RotatorValidating | RotatorMutating | RotatorCRDConversion | RotatorAPIService
  datatype RotatorWebhookInfo = RotatorWebhookInfo(name: string, typ: RotatorWebhookType)

  /** `convertWebhookType`; any undeclared value panics, so callers must not pass one. */
  function ConvertWebhookType(typ: WebhookType): (r: RotatorWebhookType)
    requires Supported(typ)
    ensures WebhookTypeOf(r) == typ
  {
    if typ == Validating then RotatorValidating
    else if typ == Mutating then RotatorMutating
    else if typ == CRDConversion then RotatorCRDConversion
    else RotatorAPIService
  }

  /** The declared value behind each rotator kind. */
  function WebhookTypeOf(typ: RotatorWebhookType): (r: WebhookType)
    ensures Supported(r)
  {
    match typ
    case RotatorValidating => Validating
    case RotatorMutating => Mutating
    case RotatorCRDConversion => CRDConversion
    case RotatorAPIService => APIService
  }

  /** The conversion is one-to-one and onto: each direction undoes the other. */
  lemma ConvertWebhookTypeBijective(typ: WebhookType, rtyp: RotatorWebhookType)
    ensures Supported(typ) ==> WebhookTypeOf(ConvertWebhookType(typ)) == typ
    ensures ConvertWebhookType(WebhookTypeOf(rtyp)) == rtyp
  {
  }

  /** The value of an Options struct. */
  datatype Settings = Settings(
    namespace: string,
    secretName: string,
    certDir: string,
    caName: string,
    serviceName: string,
    caOrganization: string,
    webhooks: seq<WebhookInfo>)

  function OrDefault(field: string, default: string): string
  {
    if field == "" then default else field
  }

  /** An unnamed webhook takes the package's service-name constant, not the option's ServiceName. */
  function DefaultWebhook(w: WebhookInfo): WebhookInfo
  {
    if w.name == "" then w.(name := DefaultServiceName) else w
  }

  /** The options after `Default`. */
  function Defaulted(s: Settings): Settings
  {
    Settings(
      OrDefault(s.namespace, DefaultNamespace),
      OrDefault(s.secretName, DefaultSecretName),
      OrDefault(s.certDir, DefaultCertDir),
      OrDefault(s.caName, DefaultCAName),
      OrDefault(s.serviceName, DefaultServiceName),
      OrDefault(s.caOrganization, DefaultCAOrganization),
      seq(|s.webhooks|, i requires 0 <= i < |s.webhooks| => DefaultWebhook(s.webhooks[i])))
  }

  predicate AllFieldsSet(s: Settings)
  {
    s.namespace != "" && s.secretName != "" && s.certDir != "" &&
    s.caName != "" && s.serviceName != "" && s.caOrganization != ""
  }

  /** After `Default` every field is set, and every webhook is named. */
  lemma DefaultedFillsEveryField(s: Settings)
    ensures AllFieldsSet(Defaulted(s))
    ensures forall i :: 0 <= i < |Defaulted(s).webhooks| ==> Defaulted(s).webhooks[i].name != ""
  {
  }

  /** Fields that were set, named webhooks, every webhook type and the list length are untouched. */
  lemma DefaultedKeepsSetValues(s: Settings)
    ensures s.namespace != "" ==> Defaulted(s).namespace == s.namespace
    ensures s.secretName != "" ==> Defaulted(s).secretName == s.secretName
    ensures s.certDir != "" ==> Defaulted(s).certDir == s.certDir
    ensures s.caName != "" ==> Defaulted(s).caName == s.caName
    ensures s.serviceName != "" ==> Defaulted(s).serviceName == s.serviceName
    ensures s.caOrganization != "" ==> Defaulted(s).caOrganization == s.caOrganization
    ensures |Defaulted(s).webhooks| == |s.webhooks|
    ensures forall i :: 0 <= i < |s.webhooks| ==>
      Defaulted(s).webhooks[i].typ == s.webhooks[i].typ &&
      (s.webhooks[i].name != "" ==> Defaulted(s).webhooks[i].name == s.webhooks[i].name) &&
      (s.webhooks[i].name == "" ==> Defaulted(s).webhooks[i].name == DefaultServiceName)
  {
  }

  /** Defaulting twice is defaulting once. */
  lemma DefaultedIdempotent(s: Settings)
    ensures Defaulted(Defaulted(s)) == Defaulted(s)
  {
    var d := Defaulted(s);
    assert Defaulted(d).webhooks == d.webhooks;
  }

  /** The Options struct, whose fields `Default` assigns in place. */
  class Options {
    var namespace: string
    var secretName: string
    var certDir: string
    var caName: string
    var serviceName: string
    var caOrganization: string
    const webhooks: array<WebhookInfo>

    constructor (s: Settings)
      ensures Value() == s && fresh(webhooks)
    {
      namespace, secretName, certDir := s.namespace, s.secretName, s.certDir;
      caName, serviceName, caOrganization := s.caName, s.serviceName, s.caOrganization;
      webhooks := new WebhookInfo[|s.webhooks|](i requires 0 <= i < |s.webhooks| => s.webhooks[i]);
    }

    function Value(): Settings
      reads this, webhooks
    {
      Settings(namespace, secretName, certDir, caName, serviceName, caOrganization, webhooks[..])
    }

    /** `Options.Default`: fill each empty field with its constant, then name each unnamed webhook. */
    method Default()
      modifies this, webhooks
      ensures Value() == Defaulted(old(Value()))
    {
      if namespace == "" {
        namespace := DefaultNamespace;
      }
      if secretName == "" {
        secretName := DefaultSecretName;
      }
      if certDir == "" {
        certDir := DefaultCertDir;
      }
      if caOrganization == "" {
        caOrganization := DefaultCAOrganization;
      }
      if caName == "" {
        caName := DefaultCAName;
      }
      if serviceName == "" {
        serviceName := DefaultServiceName;
      }
      for i := 0 to webhooks.Length
        invariant namespace == OrDefault(old(namespace), DefaultNamespace)
        invariant secretName == OrDefault(old(secretName), DefaultSecretName)
        invariant certDir == OrDefault(old(certDir), DefaultCertDir)
        invariant caName == OrDefault(old(caName), DefaultCAName)
        invariant serviceName == OrDefault(old(serviceName), DefaultServiceName)
        invariant caOrganization == OrDefault(old(caOrganization), DefaultCAOrganization)
        invariant forall j :: 0 <= j < i ==> webhooks[j] == DefaultWebhook(old(webhooks[j]))
        invariant forall j :: i <= j < webhooks.Length ==> webhooks[j] == old(webhooks[j])
      {
        if webhooks[i].name == "" {
          webhooks[i] := webhooks[i].(name := DefaultServiceName);
        }
      }
      assert webhooks[..] == Defaulted(old(Value())).webhooks;
    }
  }

  function ConvertAll(webhooks: seq<WebhookInfo>): seq<RotatorWebhookInfo>
    requires forall i :: 0 <= i < |webhooks| ==> Supported(webhooks[i].typ)
  {
    seq(|webhooks|, i requires 0 <= i < |webhooks| =>
      RotatorWebhookInfo(webhooks[i].name, ConvertWebhookType(webhooks[i].typ)))
  }

  /** `convertWebhooks`: fill a slice of the same length, entry by entry, keeping names and order. */
  method ConvertWebhooks(webhooks: seq<WebhookInfo>) returns (result: seq<RotatorWebhookInfo>)
    requires forall i :: 0 <= i < |webhooks| ==> Supported(webhooks[i].typ)
    ensures |result| == |webhooks|
    ensures forall i :: 0 <= i < |webhooks| ==>
      result[i].name == webhooks[i].name && WebhookTypeOf(result[i].typ) == webhooks[i].typ
    ensures result == ConvertAll(webhooks)
  {
    var converted := new RotatorWebhookInfo[|webhooks|];
    for i := 0 to |webhooks|
      invariant forall j :: 0 <= j < i ==>
        converted[j] == RotatorWebhookInfo(webhooks[j].name, ConvertWebhookType(webhooks[j].typ))
    {
      converted[i] := RotatorWebhookInfo(webhooks[i].name, ConvertWebhookType(webhooks[i].typ));
    }
    result := converted[..];
  }

  datatype NamespacedName = NamespacedName(name: string, namespace: string)

  /** The fields of rotator.CertRotator that `SetupCertRotator` fills. */
  datatype CertRotatorConfig = CertRotatorConfig(
    secretKey: NamespacedName,
    certDir: string,
    caName: string,
    caOrganization: string,
    dnsName: string,
    webhooks: seq<RotatorWebhookInfo>)

  /** The rotator configuration built from the defaulted options. */
  function RotatorConfig(options: Settings): (c: CertRotatorConfig)
    requires forall i :: 0 <= i < |options.webhooks| ==> Supported(options.webhooks[i].typ)
    // the service's cluster DNS name, from the options after defaulting
    ensures c.dnsName == Defaulted(options).serviceName + "." + Defaulted(options).namespace + ".svc"
    ensures c.secretKey == NamespacedName(Defaulted(options).secretName, Defaulted(options).namespace)
    ensures |c.webhooks| == |options.webhooks|
  {
    var d := Defaulted(options);
    CertRotatorConfig(
      NamespacedName(d.secretName, d.namespace),
      d.certDir, d.caName, d.caOrganization,
      d.serviceName + "." + d.namespace + ".svc",
      ConvertAll(d.webhooks))
  }

  /** With nothing set, the DNS name is the packaged service in the packaged namespace. */
  lemma DefaultDNSName(webhooks: seq<WebhookInfo>)
    requires forall i :: 0 <= i < |webhooks| ==> Supported(webhooks[i].typ)
    ensures RotatorConfig(Settings("", "", "", "", "", "", webhooks)).dnsName
         == "kinitiras-webhook.kinitiras-system.svc"
  {
  }

  /** `SetupCertRotator`: default the by-value options (modelled as a fresh copy), then register the rotator; its error aborts. */
  method SetupCertRotator(options: Settings, addRotator: CertRotatorConfig -> Option<Error>)
    returns (r: Result<CertRotatorConfig, Error>)
    requires forall i :: 0 <= i < |options.webhooks| ==> Supported(options.webhooks[i].typ)
    ensures r.Success? <==> addRotator(RotatorConfig(options)).None?
    ensures r.Success? ==> r.value == RotatorConfig(options)
    ensures r.Failure? ==> r.error == addRotator(RotatorConfig(options)).value
  {
    var copy := new Options(options);
    copy.Default();
    var webhooks := ConvertWebhooks(copy.webhooks[..]);
    var config := CertRotatorConfig(
      NamespacedName(copy.secretName, copy.namespace),
      copy.certDir, copy.caName, copy.caOrganization,
      copy.serviceName + "." + copy.namespace + ".svc",
      webhooks);
    var err := addRotator(config);
    if err.Some? {
      return Failure(err.value);
    }
    return Success(config);
  }
}
