/** What the API server accepts of the objects the operator creates. Every one of them carries the labels
    of labelsForSubresources, and a cluster role binding is validated by itself. */
module Acceptance {
  import opened Objects

  predicate IsAlphanumeric(c: char) {
    'a' <= c <= 'z' || 'A' <= c <= 'Z' || '0' <= c <= '9'
  }

  predicate IsLabelChar(c: char) {
    IsAlphanumeric(c) || c == '-' || c == '_' || c == '.'
  }

  const MAX_LABEL_LENGTH := 63

  /** The syntax of Kubernetes label values. */
  predicate IsLabelValue(s: string) {
    s == "" || (&& |s| <= MAX_LABEL_LENGTH
                && IsAlphanumeric(s[0]) && IsAlphanumeric(s[|s| - 1])
                && forall i :: 0 <= i < |s| ==> IsLabelChar(s[i]))
  }

  /** The names of the kubeconfig and of its user both become label values. */
  datatype Labels = Labels(kubeconfig: string, username: string)
  {
    predicate Valid() {
      IsLabelValue(kubeconfig) && IsLabelValue(username)
    }
  }

  function LabelsForSubresources(name: string, spec: AdmittedSpec): Labels {
    Labels(name, spec.username)
  }

  predicate LabelsAccepted(name: string, spec: AdmittedSpec) {
    LabelsForSubresources(name, spec).Valid()
  }

  const RBAC_GROUP := "rbac.authorization.k8s.io"

  /** An empty group of a role reference is defaulted. */
  function StoredRole(role: RoleRef): RoleRef {
    if role.apiGroup == "" then role.(apiGroup := RBAC_GROUP) else role
  }

  /** The binding grants the role that a spec refers to. */
  predicate GrantsRole(crb: ClusterRoleBinding, role: RoleRef) {
    && crb.roleRef.kind == role.kind && crb.roleRef.name == role.name
    && crb.roleRef.apiGroup == if role.apiGroup == "" then "rbac.authorization.k8s.io" else role.apiGroup
  }

  predicate SameRole(r: RoleRef, s: RoleRef) {
    && r.kind == s.kind && r.name == s.name
    && (|| r.apiGroup == s.apiGroup
        || (r.apiGroup == "" && s.apiGroup == "rbac.authorization.k8s.io")
        || (r.apiGroup == "rbac.authorization.k8s.io" && s.apiGroup == ""))
  }

  predicate IsRoleName(name: string) {
    name != "" && name != "." && name != ".." && '/' !in name && '%' !in name
  }

  /** The binding the operator creates for this spec, as the API server stores it. */
  function NewClusterRoleBinding(spec: AdmittedSpec): ClusterRoleBinding {
    ClusterRoleBinding(spec.username, StoredRole(spec.roleRef.value))
  }

  /** The operator's binding is to the role of the spec it was made by. */
  lemma NewBindingGrants(spec: AdmittedSpec, role: RoleRef)
    ensures GrantsRole(NewClusterRoleBinding(spec), spec.roleRef.value)
    ensures GrantsRole(NewClusterRoleBinding(spec), role) <==> SameRole(spec.roleRef.value, role)
  {
  }

  /** A binding of the cluster names a cluster role, and its subject has a name. */
  predicate BindingValid(crb: ClusterRoleBinding) {
    && crb.subject != ""
    && crb.roleRef.apiGroup == RBAC_GROUP && crb.roleRef.kind == "ClusterRole" && IsRoleName(crb.roleRef.name)
  }

  predicate BindingAccepted(name: string, spec: AdmittedSpec) {
    LabelsAccepted(name, spec) && BindingValid(NewClusterRoleBinding(spec))
  }

  /** Letters and digits make a label value, up to 63 of them. */
  lemma PlainNameIsLabel(s: string)
    requires forall i :: 0 <= i < |s| ==> 'a' <= s[i] <= 'z' || 'A' <= s[i] <= 'Z' || '0' <= s[i] <= '9'
    ensures IsLabelValue(s) <==> |s| <= 63
  {
  }

  /** A mail address is no label value. */
  lemma MailAddressIsNoLabel(user: string, host: string)
    ensures !IsLabelValue(user + "@" + host)
  {
    var s := user + "@" + host;
    assert s[|user|] == '@';
  }
}
