/** The Azure adaptor's choice of API version (relay/adaptor/azure/helper.go). */
module Azure {
  import Gin

  /** `config.KeyAPIVersion`: the context key of the channel's configured API version. */
  const KeyAPIVersion: string := "cfg_api_version"

  /** `GetAPIVersion`: a non-empty `api-version` query value as it is,
      otherwise the string stored in the context under `KeyAPIVersion`.
      As a function it can only read the context. */
  function GetAPIVersion(c: Gin.Context): (v: string)
    reads c
    ensures c.Query("api-version") != "" ==> v == c.Query("api-version")
    ensures c.Query("api-version") == "" ==> v == c.GetString(KeyAPIVersion)
    ensures v == c.Query("api-version") || v == c.GetString(KeyAPIVersion)
    ensures v == "" <==> (c.Query("api-version") == "" &&
      !(KeyAPIVersion in c.keys && c.keys[KeyAPIVersion].StringValue? && c.keys[KeyAPIVersion].str != ""))
  {
    var apiVersion := c.Query("api-version");
    if apiVersion == "" then c.GetString(KeyAPIVersion) else apiVersion
  }
}
