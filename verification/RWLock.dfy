/** Go's sync.RWMutex, as a discipline on the roles of goroutines. */
module RWLock {
  import opened Optional

  type Tid = nat

  /** A writer is first announced, which keeps new readers out, and becomes active once the readers before it
      have left. At most one writer is announced or active; other writers wait to be announced. */
  datatype RWMutex = RWMutex(writer: Option<Tid>, active: bool, readers: set<Tid>)

  const FREE := RWMutex(None, false, {})

  datatype Role = Outside | Announced | Writing | Reading

  function RoleOf(roles: map<Tid, Role>, t: Tid): Role {
    if t in roles then roles[t] else Outside
  }

  /** The lock's own record agrees with what the goroutines are doing. */
  ghost predicate Disciplined(m: RWMutex, roles: map<Tid, Role>) {
    && (forall t: Tid :: RoleOf(roles, t) == Announced ==> m.writer == Some(t) && !m.active)
    && (forall t: Tid :: RoleOf(roles, t) == Writing ==> m.writer == Some(t) && m.active)
    && (m.writer.Some? ==> RoleOf(roles, m.writer.value) == Announced || RoleOf(roles, m.writer.value) == Writing)
    && (forall t: Tid :: t in m.readers <==> RoleOf(roles, t) == Reading)
    && (m.active ==> m.writer.Some? && m.readers == {})
  }

  /** The atomic moves of goroutine `t`: none, Lock in two parts, Unlock, RLock and RUnlock. */
  predicate Moves(m: RWMutex, before: Role, m': RWMutex, after: Role, t: Tid) {
    || (before == after && m' == m)
    || (before == Outside && after == Announced && m.writer == None && m' == m.(writer := Some(t), active := false))
    || (before == Announced && after == Writing && m.readers == {} && m' == m.(active := true))
    || (before == Writing && after == Outside && m' == FREE)
    || (before == Outside && after == Reading && m.writer == None && m' == m.(readers := m.readers + {t}))
    || (before == Reading && after == Outside && m' == m.(readers := m.readers - {t}))
  }

  lemma MovesKeepDiscipline(m: RWMutex, roles: map<Tid, Role>, m': RWMutex, after: Role, t: Tid)
    requires Disciplined(m, roles) && Moves(m, RoleOf(roles, t), m', after, t)
    ensures Disciplined(m', roles[t := after])
  {
    var roles' := roles[t := after];
    forall t': Tid ensures RoleOf(roles', t') == if t' == t then after else RoleOf(roles, t') {
    }
    assert forall t': Tid :: RoleOf(roles', t') == Announced ==> m'.writer == Some(t') && !m'.active;
    assert forall t': Tid :: RoleOf(roles', t') == Writing ==> m'.writer == Some(t') && m'.active;
    assert m'.writer.Some? ==> RoleOf(roles', m'.writer.value) == Announced || RoleOf(roles', m'.writer.value) == Writing;
    assert forall t': Tid :: t' in m'.readers <==> RoleOf(roles', t') == Reading;
    assert m'.active ==> m'.writer.Some? && m'.readers == {};
  }

  /** Writers exclude each other and every reader. */
  lemma Exclusion(m: RWMutex, roles: map<Tid, Role>, t: Tid, t': Tid)
    requires Disciplined(m, roles)
    requires RoleOf(roles, t) == Writing && t != t'
    ensures RoleOf(roles, t') == Outside
  {
  }
}
