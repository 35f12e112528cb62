/**
 * The two kinds of cluster resources the agent reads, as the resource cache hands
 * them out, and the BareMetalHost status record the agent writes.
 */
module Resources {
  import opened Wrappers
  import opened Json

  /**
   * A resource as a mutable dict. The model takes the cache to hand out its own
   * object rather than a copy (the cache is not part of this model), so a change
   * made through it is seen by every holder of the same object.
   */
  class Resource {
    var fields: map<string, Json>

    constructor (fields: map<string, Json>)
      ensures this.fields == fields
    {
      this.fields := fields;
    }
  }

  /** Namespace and name of a resource in the cache. */
  datatype Key = Key(namespace: string, name: string)

  /**
   * `infraenv.get("status", {}).get("isoDownloadURL", "")`: None when `status`
   * holds something that is not an object (the source raises there).
   */
  function InfraEnvIsoUrl(fields: map<string, Json>): Option<Json>
  {
    Get(GetField(fields, "status", EmptyObject), "isoDownloadURL", Str(""))
  }

  /**
   * `baremetalhost.get("spec", {}).get("image", {}).get("url", "")`: None when
   * `spec` or `spec.image` holds something that is not an object.
   */
  function BmhImageUrl(fields: map<string, Json>): Option<Json>
  {
    match Get(GetField(fields, "spec", EmptyObject), "image", EmptyObject)
    case None => None
    case Some(image) => Get(image, "url", Str(""))
  }

  /** The keys of every status record. */
  const StatusKeys: set<string> := {
    "errorCount", "errorMessage", "goodCredentials", "hardwareProfile",
    "operationalStatus", "poweredOn", "provisioning"
  }

  /**
   * The whole status written for a provisioning state: no error, discovered, powered
   * on, and a provisioning block whose id and image URL are empty.
   */
  function StatusRecord(provisioningState: string): Json
  {
    Object(map[
      "errorCount" := Int(0),
      "errorMessage" := Str(""),
      "goodCredentials" := EmptyObject,
      "hardwareProfile" := Str(""),
      "operationalStatus" := Str("discovered"),
      "poweredOn" := Bool(true),
      "provisioning" := Object(map[
        "state" := Str(provisioningState),
        "ID" := Str(""),
        "image" := Object(map["url" := Str("")])
      ])
    ])
  }

  /** `status["provisioning"]["state"]`, when the status has that shape and the state is a string. */
  function ProvisioningState(status: Json): Option<string>
  {
    if status.Object? && "provisioning" in status.fields
       && status.fields["provisioning"].Object? && "state" in status.fields["provisioning"].fields
       && status.fields["provisioning"].fields["state"].Str?
    then Some(status.fields["provisioning"].fields["state"].s)
    else None
  }

  /**
   * A status record carries exactly the seven fixed fields, and reading its
   * provisioning state back gives the state it was built from; so two records
   * are equal exactly when their states are.
   */
  lemma StatusRecordReadsBack(a: string, b: string)
    ensures StatusRecord(a).Object? && StatusRecord(a).fields.Keys == StatusKeys
    ensures ProvisioningState(StatusRecord(a)) == Some(a)
    ensures StatusRecord(a) == StatusRecord(b) <==> a == b
  {
  }

  /** The resource's fields after `baremetalhost["status"] = StatusRecord(state)`. */
  function WithStatus(fields: map<string, Json>, provisioningState: string): map<string, Json>
  {
    fields["status" := StatusRecord(provisioningState)]
  }

  /**
   * Writing the status replaces it whole: what is there afterwards depends on the
   * requested state alone, not on any earlier status; every other top-level field
   * is kept as it was, and no field is added besides `status`.
   */
  lemma WithStatusReplacesWholeStatus(before: map<string, Json>, other: map<string, Json>, provisioningState: string)
    ensures var after := WithStatus(before, provisioningState);
      && after.Keys == before.Keys + {"status"}
      && after["status"] == WithStatus(other, provisioningState)["status"]
      && ProvisioningState(after["status"]) == Some(provisioningState)
      && forall k :: k in before && k != "status" ==> after[k] == before[k]
  {
  }
}
