/** The labels shown for a member's role. */
module RoleUtils {

  /** The `roles` table. */
  const Roles: map<string, string> := map[
    "owner" := "Владелец",
    "mentor" := "Наставник",
    "editor" := "Редактор",
    "member" := "Участник",
    "guest" := "Гость"]

  /** `roles[role] || role`: the name, or the key itself outside the table. */
  function TranslateRole(role: string): (name: string)
    ensures role in Roles ==> name == Roles[role]
    ensures role !in Roles ==> name == role
  {
    if role in Roles && Roles[role] != "" then Roles[role] else role
  }

  /** Each known role has its fixed name. */
  lemma KnownRoles()
    ensures TranslateRole("owner") == "Владелец"
    ensures TranslateRole("mentor") == "Наставник"
    ensures TranslateRole("editor") == "Редактор"
    ensures TranslateRole("member") == "Участник"
    ensures TranslateRole("guest") == "Гость"
  {
  }

  /** No two roles share a name. */
  lemma LabelsDistinct(r1: string, r2: string)
    requires r1 in Roles && r2 in Roles && r1 != r2
    ensures TranslateRole(r1) != TranslateRole(r2)
  {
  }

  /** A non-empty role never translates to the empty string. */
  lemma NonEmptyLabel(role: string)
    requires role != ""
    ensures TranslateRole(role) != ""
  {
  }
}
