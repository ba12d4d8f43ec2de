/** The role label of the page header (frontend/src/components/layout/Header.tsx). */
module Header {
  import opened Wrappers

  const UnknownLabel := "不明"

  /** The role codes the header knows, in the order of its switch. */
  const KnownRoles: seq<string> := ["SYSTEM_ADMIN", "INVENTORY_MANAGER", "FIELD_OPERATOR", "ANALYST", "VIEWER"]

  /** getRoleLabel: the display label of a role code; anything else, a missing role included, is unknown. */
  function GetRoleLabel(role: Option<string>): string
  {
    if role == Some("SYSTEM_ADMIN") then "システム管理者"
    else if role == Some("INVENTORY_MANAGER") then "在庫管理者"
    else if role == Some("FIELD_OPERATOR") then "現場担当者"
    else if role == Some("ANALYST") then "本社アナリスト"
    else if role == Some("VIEWER") then "閲覧者"
    else UnknownLabel
  }

  /** Each known code has its own label, and none of them is the unknown label. */
  lemma KnownLabelsDistinct()
    ensures forall i :: 0 <= i < |KnownRoles| ==> GetRoleLabel(Some(KnownRoles[i])) != UnknownLabel
    ensures forall i, j :: 0 <= i < |KnownRoles| && 0 <= j < |KnownRoles| ==>
      (GetRoleLabel(Some(KnownRoles[i])) == GetRoleLabel(Some(KnownRoles[j])) <==> i == j)
  {
  }

  /** A role is shown as unknown exactly when it is missing or not one of the five codes. */
  lemma UnknownExactlyOutsideTable(role: Option<string>)
    ensures GetRoleLabel(role) == UnknownLabel <==> role.None? || role.value !in KnownRoles
  {
  }
}
