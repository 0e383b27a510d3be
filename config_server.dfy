/** `ServerConfig.Validate` of config/server.go: four fields are trimmed in place,
    then checked for emptiness in a fixed order; the first empty one is reported. */
module ConfigServer {
  import opened Base
  import opened ConfigCommon

  const EmptyReason := "Should not be empty"

  /** The position of the first empty value among `values`. */
  function FirstEmpty(values: seq<string>): (r: Option<nat>)
    ensures r.Some? ==> r.value < |values| && values[r.value] == []
    ensures r.Some? ==> forall j :: 0 <= j < r.value ==> values[j] != []
    ensures r.None? <==> forall j :: 0 <= j < |values| ==> values[j] != []
    decreases |values|
  {
    if values == [] then None
    else if values[0] == [] then Some(0)
    else match FirstEmpty(values[1..])
      case None => None
      case Some(i) => Some(i + 1)
  }

  /** The parameter names, in the order the checks run. */
  const Parameters := ["Namespace", "Name", "Address", "Repl Address"]

  /** The checks that follow the trimming. */
  function ServerCheck(namespace: string, name: string, address: string, replAddress: string): Option<ConfigError>
  {
    match FirstEmpty([namespace, name, address, replAddress])
    case None => None
    case Some(i) => Some(InvalidConfigurationParameter(Parameters[i], EmptyReason))
  }

  class ServerConfig {
    var namespace: string
    var name: string
    var version: string
    var address: string
    var replAddress: string
    var debug: bool

    constructor (namespace: string, name: string, version: string, address: string, replAddress: string, debug: bool)
      ensures this.namespace == namespace && this.name == name && this.version == version
      ensures this.address == address && this.replAddress == replAddress && this.debug == debug
    {
      this.namespace := namespace;
      this.name := name;
      this.version := version;
      this.address := address;
      this.replAddress := replAddress;
      this.debug := debug;
    }

    /** The fields are trimmed even when a check then fails. */
    method Validate() returns (err: Option<ConfigError>)
      modifies this
      ensures namespace == TrimSpace(old(namespace)) && name == TrimSpace(old(name))
      ensures address == TrimSpace(old(address)) && replAddress == TrimSpace(old(replAddress))
      ensures version == old(version) && debug == old(debug)
      ensures err == ServerCheck(namespace, name, address, replAddress)
    {
      namespace := TrimSpace(namespace);
      name := TrimSpace(name);
      address := TrimSpace(address);
      replAddress := TrimSpace(replAddress);
      ServerCheckFirstEmpty(namespace, name, address, replAddress);
      if namespace == "" {
        return Some(InvalidConfigurationParameter("Namespace", EmptyReason));
      }
      if name == "" {
        return Some(InvalidConfigurationParameter("Name", EmptyReason));
      }
      if address == "" {
        return Some(InvalidConfigurationParameter("Address", EmptyReason));
      }
      if replAddress == "" {
        return Some(InvalidConfigurationParameter("Repl Address", EmptyReason));
      }
      return None;
    }
  }

  /** The check succeeds exactly when all four fields are non-empty; a failure
      always carries the reason "Should not be empty" and names the first empty
      field in the order Namespace, Name, Address, Repl Address. */
  lemma ServerCheckFirstEmpty(namespace: string, name: string, address: string, replAddress: string)
    ensures var err := ServerCheck(namespace, name, address, replAddress);
      && (err.None? <==> namespace != [] && name != [] && address != [] && replAddress != [])
      && (err.Some? ==> err.value.reason == EmptyReason)
      && (namespace == [] ==> err == Some(InvalidConfigurationParameter("Namespace", EmptyReason)))
      && (namespace != [] && name == [] ==> err == Some(InvalidConfigurationParameter("Name", EmptyReason)))
      && (namespace != [] && name != [] && address == [] ==> err == Some(InvalidConfigurationParameter("Address", EmptyReason)))
      && (namespace != [] && name != [] && address != [] && replAddress == [] ==>
            err == Some(InvalidConfigurationParameter("Repl Address", EmptyReason)))
  {
    var values := [namespace, name, address, replAddress];
    assert values[0] == namespace && values[1] == name && values[2] == address && values[3] == replAddress;
  }

  /** Validating again after a validation changes no field and gives the same answer. */
  lemma ValidateIdempotent(namespace: string, name: string, address: string, replAddress: string)
    ensures TrimSpace(TrimSpace(namespace)) == TrimSpace(namespace) && TrimSpace(TrimSpace(name)) == TrimSpace(name)
    ensures TrimSpace(TrimSpace(address)) == TrimSpace(address) && TrimSpace(TrimSpace(replAddress)) == TrimSpace(replAddress)
  {
    TrimSpaceIdempotent(namespace);
    TrimSpaceIdempotent(name);
    TrimSpaceIdempotent(address);
    TrimSpaceIdempotent(replAddress);
  }
}
