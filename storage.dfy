/**
 * The persistent key/value namespace (localStorage) and the transaction
 * store of app.jsx built on it: loadTransactions, saveTransactions,
 * addTransaction, editTransaction and deleteTransaction.
 */
module Storage {
  import opened Transactions

  /**
   * What a key holds: text that parses to a ledger, or text that JSON.parse
   * rejects. A key that holds nothing is absent from the namespace.
   */
  datatype Entry = Stored(ledger: seq<Transaction>) | Corrupt

  type Namespace = map<string, Entry>

  /** loadTransactions: the stored ledger, or the empty ledger when the key is absent or corrupt. */
  function Load(ns: Namespace, key: string): (r: seq<Transaction>)
    ensures r == [] || (key in ns && ns[key] == Stored(r))
    ensures key in ns && ns[key].Stored? ==> r == ns[key].ledger
  {
    if key in ns && ns[key].Stored? then ns[key].ledger else []
  }

  /**
   * saveTransactions: writes the whole ledger under `key`. `accepted` is
   * whether setItem succeeds; a refused write (quota exceeded) leaves the
   * namespace as it was.
   */
  function Save(ns: Namespace, key: string, data: seq<Transaction>, accepted: bool): (r: Namespace)
    ensures accepted ==> key in r && r[key] == Stored(data)
    ensures forall k :: k != key ==> (k in r <==> k in ns)
    ensures forall k :: k != key && k in ns ==> r[k] == ns[k]
    ensures !accepted ==> r == ns
  {
    if accepted then ns[key := Stored(data)] else ns
  }

  /** Absent and corrupt keys load as the empty ledger. */
  lemma LoadAbsentOrCorrupt(ns: Namespace, key: string)
    requires key !in ns || ns[key] == Corrupt
    ensures Load(ns, key) == []
  {
  }

  /** Loading after an accepted save returns what was saved. */
  lemma LoadSaveRoundTrip(ns: Namespace, key: string, data: seq<Transaction>)
    ensures Load(Save(ns, key, data, true), key) == data
  {
  }

  /** A save touches its own key only; a refused save touches nothing. */
  lemma SaveFrame(ns: Namespace, key: string, data: seq<Transaction>, accepted: bool, other: string)
    requires other != key
    ensures other in Save(ns, key, data, accepted) <==> other in ns
    ensures other in ns ==> Save(ns, key, data, accepted)[other] == ns[other]
    ensures Load(Save(ns, key, data, accepted), other) == Load(ns, other)
    ensures !accepted ==> Save(ns, key, data, accepted) == ns
  {
  }

  /** The ledger addTransaction returns and persists. */
  function AddResult(ns: Namespace, key: string, t: Transaction): (r: seq<Transaction>)
    ensures |r| == |Load(ns, key)| + 1
    ensures r[..|r| - 1] == Load(ns, key) && r[|r| - 1] == t
  {
    Load(ns, key) + [t]
  }

  /** The ledger editTransaction returns and persists. */
  function EditResult(ns: Namespace, key: string, newT: Transaction, toEdit: Patch): (r: seq<Transaction>)
    ensures |r| == |Load(ns, key)|
    ensures forall j :: 0 <= j < |r| ==> r[j] == Load(ns, key)[j] || r[j] == Merge(newT, toEdit)
  {
    EditLedger(Load(ns, key), newT, toEdit)
  }

  /** The ledger deleteTransaction returns and persists. */
  function DeleteResult(ns: Namespace, key: string, t: Transaction): (r: seq<Transaction>)
    ensures |r| == if Load(ns, key) == [] then 0 else |Load(ns, key)| - 1
    ensures multiset(r) <= multiset(Load(ns, key))
  {
    DeleteLedger(Load(ns, key), t)
  }

  /** Add appends: one more record, the prior ones in their order, and it loads back. */
  lemma AddAppends(ns: Namespace, key: string, t: Transaction)
    ensures |AddResult(ns, key, t)| == |Load(ns, key)| + 1
    ensures AddResult(ns, key, t)[..|Load(ns, key)|] == Load(ns, key)
    ensures AddResult(ns, key, t)[|Load(ns, key)|] == t
    ensures Load(Save(ns, key, AddResult(ns, key, t), true), key) == Load(ns, key) + [t]
  {
  }

  /** Adding {Salary, 1000, 1000} to an empty incomes ledger gives that one record, totalling 1000. */
  lemma AddSalaryExample(ns: Namespace)
    requires "incomes" !in ns
    ensures AddResult(ns, "incomes", Transaction("incomes", "Salary", 1000, 1000))
            == [Transaction("incomes", "Salary", 1000, 1000)]
    ensures Total(AddResult(ns, "incomes", Transaction("incomes", "Salary", 1000, 1000))) == 1000
  {
    TotalSmall(Transaction("incomes", "Salary", 1000, 1000));
  }

  /** localStorage together with the transaction operations that read and write it. */
  class TransactionStore {
    var entries: Namespace

    constructor (initial: Namespace)
      ensures entries == initial
    {
      entries := initial;
    }

    /** loadTransactions(type); a parse failure is caught and gives []. */
    method LoadTransactions(key: string) returns (ledger: seq<Transaction>)
      ensures ledger == Load(entries, key)
      ensures key !in entries || entries[key].Corrupt? ==> ledger == []
    {
      if key in entries {
        match entries[key]
        case Stored(data) => ledger := data;
        case Corrupt => ledger := [];
      } else {
        ledger := [];
      }
    }

    /** saveTransactions(type, data); a failing setItem is caught and changes nothing. */
    method SaveTransactions(key: string, data: seq<Transaction>, accepted: bool)
      modifies this
      ensures entries == Save(old(entries), key, data, accepted)
    {
      if accepted {
        entries := entries[key := Stored(data)];
      }
    }

    /** addTransaction(type, t): the loaded ledger followed by `t`, persisted and returned. */
    method AddTransaction(key: string, t: Transaction, accepted: bool) returns (updated: seq<Transaction>)
      modifies this
      ensures updated == Load(old(entries), key) + [t]
      ensures entries == Save(old(entries), key, updated, accepted)
    {
      var loaded := LoadTransactions(key);
      updated := loaded + [t];
      SaveTransactions(key, updated, accepted);
    }

    /**
     * editTransaction(type, newT, toEdit): overwrites the first record keyed
     * like `newT` with Object.assign(newT, toEdit) and persists the array,
     * which on a miss is the loaded array unchanged.
     */
    method EditTransaction(key: string, newT: Transaction, toEdit: Patch, accepted: bool)
      returns (saved: seq<Transaction>)
      modifies this
      ensures saved == EditResult(old(entries), key, newT, toEdit)
      ensures entries == Save(old(entries), key, saved, accepted)
      ensures |saved| == |Load(old(entries), key)|
    {
      saved := LoadTransactions(key);
      var index := FindIndex(saved, newT.time, newT.amount);
      // `index !== null` is true of -1 as well, so the branch always runs.
      saved := AssignAt(saved, index, Merge(newT, toEdit));
      SaveTransactions(key, saved, accepted);
    }

    /**
     * deleteTransaction(type, t): splices out the element at the index
     * findIndex returns, -1 included, and persists the array.
     */
    method DeleteTransaction(key: string, t: Transaction, accepted: bool) returns (saved: seq<Transaction>)
      modifies this
      ensures saved == DeleteResult(old(entries), key, t)
      ensures entries == Save(old(entries), key, saved, accepted)
      ensures Load(old(entries), key) != [] ==> |saved| == |Load(old(entries), key)| - 1
      ensures Load(old(entries), key) == [] ==> saved == []
    {
      saved := LoadTransactions(key);
      var index := FindIndex(saved, t.time, t.amount);
      // `index !== null` is true of -1 as well, so the branch always runs.
      saved := SpliceOne(saved, index);
      SaveTransactions(key, saved, accepted);
    }
  }
}
