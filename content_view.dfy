/// The root screen's tab selection: a typed `Tab` persisted as its raw `Int`.
module Tabs {
  import opened Codable

  datatype Tab = Signals | Positions | History | About

  function RawValue(t: Tab): int {
    match t
    case Signals => 0
    case Positions => 1
    case History => 2
    case About => 3
  }

  /// `id`: the raw value, so the four tabs have distinct identities.
  function Id(t: Tab): (i: int)
    ensures 0 <= i <= 3
    ensures i == RawValue(t)
  {
    RawValue(t)
  }

  /// `Tab(rawValue:)`
  function FromRawValue(i: int): (r: Option<Tab>)
    ensures r.Some? <==> 0 <= i <= 3
    ensures r.Some? ==> RawValue(r.value) == i
  {
    if i == 0 then Some(Signals)
    else if i == 1 then Some(Positions)
    else if i == 2 then Some(History)
    else if i == 3 then Some(About)
    else None
  }

  /// The stored value before any selection: `Tab.signals.rawValue`.
  const InitialStoredTab: int := RawValue(Signals)

  /// The binding's getter: the tab whose raw value is stored, or the signals
  /// tab for any other number.
  function SelectedTab(stored: int): (t: Tab)
    ensures 0 <= stored <= 3 ==> RawValue(t) == stored
    ensures !(0 <= stored <= 3) ==> t == Signals
  {
    FromRawValue(stored).GetOr(Signals)
  }

  /// The binding's setter: the number it stores.
  function StoreTab(t: Tab): (stored: int)
    ensures 0 <= stored <= 3
  {
    RawValue(t)
  }

  /// Reading the binding after writing it gives back the tab written.
  lemma SelectAfterStore(t: Tab)
    ensures SelectedTab(StoreTab(t)) == t
  {
  }

  /// Distinct tabs are stored as distinct numbers.
  lemma {:induction false} RawValueInjective(t: Tab, u: Tab)
    requires RawValue(t) == RawValue(u)
    ensures t == u
  {
    SelectAfterStore(t);
    SelectAfterStore(u);
  }

  /// Before any selection the signals tab is shown.
  lemma InitialSelectionIsSignals()
    ensures SelectedTab(InitialStoredTab) == Signals
  {
  }
}
