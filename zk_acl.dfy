/** The ACL environment helper (controllers/util/zk_util.go, AddACLsToEnv): the
    environment variables that hand Zookeeper digest credentials to Solr. For each
    ACL given, two variables read its username and password from a secret; a last
    variable passes the Java system properties that name the ACL and credentials
    providers and refer to those variables. */
module ZkAcl {
  import opened ZkTypes

  /** A reference to the secret holding one ACL's credentials. */
  datatype ZookeeperACL = ZookeeperACL(secretRef: string, usernameKey: string, passwordKey: string)

  /** Whether any ACL was given, and the variables to add to the container. */
  datatype AclEnv = AclEnv(hasACLs: bool, envVars: seq<EnvVar>)

  const AllAclUsernameVar: string := "ZK_ALL_ACL_USERNAME"
  const AllAclPasswordVar: string := "ZK_ALL_ACL_PASSWORD"
  const ReadAclUsernameVar: string := "ZK_READ_ACL_USERNAME"
  const ReadAclPasswordVar: string := "ZK_READ_ACL_PASSWORD"
  const CredsAndAclsVar: string := "SOLR_ZK_CREDS_AND_ACLS"

  /** The fixed start of the last variable's value: the ACL provider and the
      credentials provider, followed by a space. */
  const ProviderSettings: string :=
    "-DzkACLProvider=org.apache.solr.common.cloud.VMParamsAllAndReadonlyDigestZkACLProvider "
    + "-DzkCredentialsProvider=org.apache.solr.common.cloud.VMParamsSingleSetCredentialsDigestZkCredentialsProvider "

  /** The digest properties for the all-permissions ACL and for the read-only ACL:
      each names a system property and refers to the variable that holds its value. */
  const DigestPropertyPrefix: string := "-DzkDigest"
  const AllDigestUsername: string := DigestPropertyPrefix + "Username=$(" + AllAclUsernameVar + ")"
  const AllDigestPassword: string := DigestPropertyPrefix + "Password=$(" + AllAclPasswordVar + ")"
  const ReadonlyDigestUsername: string := DigestPropertyPrefix + "ReadonlyUsername=$(" + ReadAclUsernameVar + ")"
  const ReadonlyDigestPassword: string := DigestPropertyPrefix + "ReadonlyPassword=$(" + ReadAclPasswordVar + ")"

  /** Go's strings.Join: the parts with `sep` between each two of them. */
  function Join(parts: seq<string>, sep: char): string {
    if |parts| == 0 then ""
    else if |parts| == 1 then parts[0]
    else parts[0] + [sep] + Join(parts[1..], sep)
  }

  /** Go's strings.Split with a one-character separator: the maximal pieces of `s`
      between occurrences of `sep`. */
  function Split(s: string, sep: char): (parts: seq<string>)
    ensures |parts| > 0
    ensures sep !in s ==> parts == [s]
  {
    if |s| == 0 then [""]
    else
      var rest := Split(s[1..], sep);
      assert [s[0]] + s[1..] == s;
      if s[0] == sep then [""] + rest
      else [[s[0]] + rest[0]] + rest[1..]
  }

  /** Splitting a word that does not contain the separator, followed by the
      separator and a tail, yields the word and then the pieces of the tail. */
  lemma {:induction false} SplitWordThenSeparator(word: string, sep: char, tail: string)
    requires sep !in word
    ensures Split(word + [sep] + tail, sep) == [word] + Split(tail, sep)
  {
    if |word| == 0 {
      assert word + [sep] + tail == [sep] + tail;
      assert ([sep] + tail)[1..] == tail;
    } else {
      var s := word + [sep] + tail;
      assert s[1..] == word[1..] + [sep] + tail;
      SplitWordThenSeparator(word[1..], sep, tail);
      assert [s[0]] + word[1..] == word;
    }
  }

  /** Split undoes Join when no part contains the separator. */
  lemma {:induction false} SplitJoin(parts: seq<string>, sep: char)
    requires |parts| > 0
    requires forall i :: 0 <= i < |parts| ==> sep !in parts[i]
    ensures Split(Join(parts, sep), sep) == parts
  {
    if |parts| > 1 {
      SplitWordThenSeparator(parts[0], sep, Join(parts[1..], sep));
      SplitJoin(parts[1..], sep);
      assert [parts[0]] + parts[1..] == parts;
    }
  }

  /** A variable whose value is read, as required (not optional), from `key` of the
      ACL's secret. */
  function SecretEnvVar(name: string, acl: ZookeeperACL, key: string): EnvVar {
    EnvVar(name, "", Some(EnvVarSource(Some(SecretKeySelector(LocalObjectReference(acl.secretRef), key, Some(false))))))
  }

  /** The username and password variables for one ACL. */
  function CredentialVars(acl: ZookeeperACL, usernameVar: string, passwordVar: string): seq<EnvVar> {
    [SecretEnvVar(usernameVar, acl, acl.usernameKey), SecretEnvVar(passwordVar, acl, acl.passwordKey)]
  }

  /** The digest properties, the all-permissions pair first. */
  function DigestProperties(allACL: Option<ZookeeperACL>, readOnlyACL: Option<ZookeeperACL>): seq<string> {
    (if allACL.Some? then [AllDigestUsername, AllDigestPassword] else [])
    + (if readOnlyACL.Some? then [ReadonlyDigestUsername, ReadonlyDigestPassword] else [])
  }

  /** The environment for the given ACLs. */
  function AddACLsToEnv(allACL: Option<ZookeeperACL>, readOnlyACL: Option<ZookeeperACL>): (r: AclEnv)
    ensures r.hasACLs <==> allACL.Some? || readOnlyACL.Some?
    ensures !r.hasACLs ==> r.envVars == []
    ensures r.hasACLs ==>
              |r.envVars| == 1 + (if allACL.Some? then 2 else 0) + (if readOnlyACL.Some? then 2 else 0)
    // the all-permissions pair first, username before password
    ensures allACL.Some? ==>
              && r.envVars[0] == SecretEnvVar(AllAclUsernameVar, allACL.value, allACL.value.usernameKey)
              && r.envVars[1] == SecretEnvVar(AllAclPasswordVar, allACL.value, allACL.value.passwordKey)
    // then the read-only pair
    ensures readOnlyACL.Some? ==>
              var k := if allACL.Some? then 2 else 0;
              && r.envVars[k] == SecretEnvVar(ReadAclUsernameVar, readOnlyACL.value, readOnlyACL.value.usernameKey)
              && r.envVars[k + 1] == SecretEnvVar(ReadAclPasswordVar, readOnlyACL.value, readOnlyACL.value.passwordKey)
    // every variable but the last reads a required secret key
    ensures forall i :: 0 <= i < |r.envVars| - 1 ==>
              && r.envVars[i].valueFrom.Some?
              && r.envVars[i].valueFrom.value.secretKeyRef.Some?
              && r.envVars[i].valueFrom.value.secretKeyRef.value.optional == Some(false)
    // the provider settings come last
    ensures r.hasACLs ==>
              r.envVars[|r.envVars| - 1] ==
              EnvVar(CredsAndAclsVar, ProviderSettings + Join(DigestProperties(allACL, readOnlyACL), ' '), None)
  {
    if allACL.None? && readOnlyACL.None? then
      AclEnv(false, [])
    else
      var allVars := if allACL.Some? then CredentialVars(allACL.value, AllAclUsernameVar, AllAclPasswordVar) else [];
      var readVars := if readOnlyACL.Some? then CredentialVars(readOnlyACL.value, ReadAclUsernameVar, ReadAclPasswordVar) else [];
      var settings := ProviderSettings + Join(DigestProperties(allACL, readOnlyACL), ' ');
      AclEnv(true, allVars + readVars + [EnvVar(CredsAndAclsVar, settings, None)])
  }

  lemma AllAclVarsHaveNoSpace()
    ensures ' ' !in AllAclUsernameVar && ' ' !in AllAclPasswordVar
  {}

  lemma ReadAclVarsHaveNoSpace()
    ensures ' ' !in ReadAclUsernameVar && ' ' !in ReadAclPasswordVar
  {}

  lemma PropertyNamesHaveNoSpace()
    ensures ' ' !in DigestPropertyPrefix
    ensures ' ' !in "Username=$(" && ' ' !in "Password=$("
    ensures ' ' !in "ReadonlyUsername=$(" && ' ' !in "ReadonlyPassword=$("
  {}

  /** No digest property contains a space. */
  lemma DigestPropertiesHaveNoSpaces(allACL: Option<ZookeeperACL>, readOnlyACL: Option<ZookeeperACL>)
    ensures forall i :: 0 <= i < |DigestProperties(allACL, readOnlyACL)| ==> ' ' !in DigestProperties(allACL, readOnlyACL)[i]
  {
    AllAclVarsHaveNoSpace();
    ReadAclVarsHaveNoSpace();
    PropertyNamesHaveNoSpace();
  }

  /** The digest properties can be read back from the last variable's value: after
      the provider settings, its space-separated words are exactly the digest
      properties, and the read-only ones are among them iff a read-only ACL is given. */
  lemma CredsAndAclsProperties(allACL: Option<ZookeeperACL>, readOnlyACL: Option<ZookeeperACL>)
    requires allACL.Some? || readOnlyACL.Some?
    ensures var vars := AddACLsToEnv(allACL, readOnlyACL).envVars;
            var value := vars[|vars| - 1].value;
            && |ProviderSettings| <= |value| && value[..|ProviderSettings|] == ProviderSettings
            && Split(value[|ProviderSettings|..], ' ') == DigestProperties(allACL, readOnlyACL)
  {
    var properties := DigestProperties(allACL, readOnlyACL);
    var vars := AddACLsToEnv(allACL, readOnlyACL).envVars;
    var value := vars[|vars| - 1].value;
    assert value[|ProviderSettings|..] == Join(properties, ' ');
    DigestPropertiesHaveNoSpaces(allACL, readOnlyACL);
    SplitJoin(properties, ' ');
  }

  /** The read-only digest properties are passed iff a read-only ACL is given, and the
      all-permissions ones iff an all-permissions ACL is given. */
  lemma DigestPropertiesPresence(allACL: Option<ZookeeperACL>, readOnlyACL: Option<ZookeeperACL>)
    ensures ReadonlyDigestUsername in DigestProperties(allACL, readOnlyACL) <==> readOnlyACL.Some?
    ensures ReadonlyDigestPassword in DigestProperties(allACL, readOnlyACL) <==> readOnlyACL.Some?
    ensures AllDigestUsername in DigestProperties(allACL, readOnlyACL) <==> allACL.Some?
    ensures AllDigestPassword in DigestProperties(allACL, readOnlyACL) <==> allACL.Some?
  {
  }

  /** Read back from the last variable, the read-only digest properties are among its
      words iff a read-only ACL is given, and the all-permissions ones iff an
      all-permissions ACL is given. */
  lemma CredsAndAclsNameExactlyTheGivenACLs(allACL: Option<ZookeeperACL>, readOnlyACL: Option<ZookeeperACL>)
    requires allACL.Some? || readOnlyACL.Some?
    ensures var vars := AddACLsToEnv(allACL, readOnlyACL).envVars;
            var value := vars[|vars| - 1].value;
            && |ProviderSettings| <= |value|
            && var words := Split(value[|ProviderSettings|..], ' ');
               && (ReadonlyDigestUsername in words && ReadonlyDigestPassword in words <==> readOnlyACL.Some?)
               && (AllDigestUsername in words && AllDigestPassword in words <==> allACL.Some?)
  {
    CredsAndAclsProperties(allACL, readOnlyACL);
    DigestPropertiesPresence(allACL, readOnlyACL);
  }
}
