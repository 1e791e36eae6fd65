/** The vault's records (rust/src/api/models.rs), shared by every other module. */
module Models {
  import opened Collections

  type u16 = x: int | 0 <= x < 0x1_0000
  type u64 = x: int | 0 <= x < 0x1_0000_0000_0000_0000

  const DEFAULT_TIMEOUT: u64 := 30

  datatype Protocol = Ssh | Rdp | Vnc | Http | Https | Vpn

  datatype Connection = Connection(
    id: string,
    name: string,
    protocol: Protocol,
    host: string,
    port: u16,
    username: Option<string>,
    password: Option<string>,
    privateKeyPath: Option<string>,
    privateKeyPassphrase: Option<string>,
    folderId: Option<string>,
    tags: seq<string>,
    notes: Option<string>,
    jumpHostId: Option<string>,
    timeoutSeconds: u64,
    domain: Option<string>)

  datatype Folder = Folder(id: string, name: string, parentId: Option<string>)

  datatype VaultData = VaultData(connections: seq<Connection>, folders: seq<Folder>)

  const EMPTY_DATA := VaultData([], [])

  ghost predicate UniqueIds(folders: seq<Folder>) {
    forall i, j :: 0 <= i < j < |folders| ==> folders[i].id != folders[j].id
  }

  function FolderIds(folders: seq<Folder>): (ids: set<string>)
    ensures forall f :: f in folders ==> f.id in ids
  {
    set f | f in folders :: f.id
  }

  /** The folders whose parent is `key`, in list order; `None` selects the root folders. */
  function ChildrenOf(folders: seq<Folder>, key: Option<string>): (kids: seq<Folder>)
    ensures forall f {:trigger f in kids} :: f in kids <==> f in folders && f.parentId == key
  {
    if folders == [] then []
    else if folders[0].parentId == key then [folders[0]] + ChildrenOf(folders[1..], key)
    else ChildrenOf(folders[1..], key)
  }

  /** The connections filed under `key`, in list order; `None` selects the unfiled ones. */
  function ConnectionsIn(connections: seq<Connection>, key: Option<string>): (found: seq<Connection>)
    ensures forall c {:trigger c in found} :: c in found <==> c in connections && c.folderId == key
  {
    if connections == [] then []
    else if connections[0].folderId == key then [connections[0]] + ConnectionsIn(connections[1..], key)
    else ConnectionsIn(connections[1..], key)
  }

  lemma {:induction false} NoChildren(folders: seq<Folder>, key: Option<string>)
    requires forall f :: f in folders ==> f.parentId != key
    ensures ChildrenOf(folders, key) == []
  {
    if folders != [] {
      NoChildren(folders[1..], key);
    }
  }

  lemma {:induction false} NothingFiled(connections: seq<Connection>, key: Option<string>)
    requires forall c :: c in connections ==> c.folderId != key
    ensures ConnectionsIn(connections, key) == []
  {
    if connections != [] {
      NothingFiled(connections[1..], key);
    }
  }

  lemma {:induction false} ChildrenOfConcat(a: seq<Folder>, b: seq<Folder>, key: Option<string>)
    ensures ChildrenOf(a + b, key) == ChildrenOf(a, key) + ChildrenOf(b, key)
  {
    if a == [] {
      assert a + b == b;
    } else {
      assert (a + b)[1..] == a[1..] + b;
      ChildrenOfConcat(a[1..], b, key);
    }
  }

  lemma {:induction false} ConnectionsInConcat(a: seq<Connection>, b: seq<Connection>, key: Option<string>)
    ensures ConnectionsIn(a + b, key) == ConnectionsIn(a, key) + ConnectionsIn(b, key)
  {
    if a == [] {
      assert a + b == b;
    } else {
      assert (a + b)[1..] == a[1..] + b;
      ConnectionsInConcat(a[1..], b, key);
    }
  }

  lemma {:induction false} ChildrenNoDup(folders: seq<Folder>, key: Option<string>)
    requires UniqueIds(folders)
    ensures NoDup(ChildrenOf(folders, key))
  {
    if folders != [] {
      ChildrenNoDup(folders[1..], key);
      assert folders[0] !in folders[1..];
      assert folders[0] !in ChildrenOf(folders[1..], key);
    }
  }
}
