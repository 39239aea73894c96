/** Role-tagged conversation turns, the unit every component of the proxy exchanges. */
module Turns {
  import opened Seqs

  /** `Unknown` stands for every role string other than "system", "user" and "assistant". */
  datatype Role = System | User | Assistant | Unknown

  datatype Turn = Turn(role: Role, content: string)

  function RoleOf(name: string): Role {
    if name == "system" then System
    else if name == "user" then User
    else if name == "assistant" then Assistant
    else Unknown
  }

  predicate IsUserOrAssistant(t: Turn) {
    t.role == User || t.role == Assistant
  }

  /** A user or assistant turn with non-empty content: what the reconciliation compares. */
  predicate IsDialogue(t: Turn) {
    IsUserOrAssistant(t) && t.content != ""
  }

  /** `turns.filter((item) => (item.role === "user" || item.role === "assistant") && item.content)`. */
  function Dialogue(turns: seq<Turn>): (r: seq<Turn>)
    ensures forall i :: 0 <= i < |r| ==> IsDialogue(r[i])
  {
    Filter(turns, IsDialogue)
  }

  /** `countRole`: how many turns carry `role`. */
  function CountRole(turns: seq<Turn>, role: Role): (n: nat)
    ensures n <= |turns|
  {
    if turns == [] then 0 else (if turns[0].role == role then 1 else 0) + CountRole(turns[1..], role)
  }

  predicate HasRole(turns: seq<Turn>, role: Role) {
    exists i :: 0 <= i < |turns| && turns[i].role == role
  }

  lemma {:induction false} CountRolePositive(turns: seq<Turn>, role: Role)
    ensures CountRole(turns, role) > 0 <==> HasRole(turns, role)
  {
    if turns != [] {
      CountRolePositive(turns[1..], role);
      if HasRole(turns[1..], role) {
        var i :| 0 <= i < |turns[1..]| && turns[1..][i].role == role;
        assert turns[i + 1].role == role;
      }
      if HasRole(turns, role) && turns[0].role != role {
        var i :| 0 <= i < |turns| && turns[i].role == role;
        assert turns[1..][i - 1].role == role;
      }
    }
  }
}
