/**
 * The contact-search prefix tree of automation/core/utils.py.
 *
 * The tree's nodes live in an arena, the field `nodes` of a `Trie` object: a
 * node's `children` map a character to the arena index of the child, and index
 * 0 is the root. `insert` and `search_prefix` walk and update that field in
 * place. Ghost fields name every node by the lower-cased path that leads to it
 * (`paths`, with `parent` and `edge` for the last step, and `index` from path
 * back to node), and record every insertion (`history`). `Valid()` says that
 * the arena is a tree under that naming and that each node holds exactly the
 * contacts `Matching(history, path)` gives.
 */
module CoreUtils {
  import opened Text

  /** One call of `insert(contact, key)`. */
  datatype Entry<T> = Entry(contact: T, key: string)

  /** `TrieNode`: children by character (as arena indices), the end-of-key mark and the contacts. */
  datatype TrieNode<T> = TrieNode(children: map<char, nat>, isEnd: bool, contacts: seq<T>)

  /** `p` is a prefix of `key`. */
  predicate IsPrefix(p: string, key: string) {
    |p| <= |key| && key[..|p|] == p
  }

  /** `p` is a non-empty prefix of `key`. */
  predicate IsNonEmptyPrefix(p: string, key: string) {
    p != [] && IsPrefix(p, key)
  }

  /** The prefixes of `k[..i + 1]` are those of `k[..i]` and `k[..i + 1]` itself. */
  lemma PrefixStep(p: string, k: string, i: nat)
    requires i < |k|
    ensures IsPrefix(p, k[..i + 1]) <==> IsPrefix(p, k[..i]) || p == k[..i + 1]
  {
    if |p| <= i {
      assert k[..i + 1][..|p|] == k[..i][..|p|];
    }
  }

  /**
   * The reference meaning of the tree: the contacts, in insertion order, of the
   * insertions whose lower-cased key has `p` as a non-empty prefix.
   */
  ghost function Matching<T>(history: seq<Entry<T>>, p: string): seq<T>
  {
    if history == [] then []
    else
      var last := history[|history| - 1];
      Matching(history[..|history| - 1], p)
        + (if IsNonEmptyPrefix(p, Lower(last.key)) then [last.contact] else [])
  }

  /** A contact is found under `p` exactly when some insertion of it had a key starting with `p`. */
  lemma {:induction false} MatchingMembership<T>(history: seq<Entry<T>>, p: string, x: T)
    ensures x in Matching(history, p) <==>
      exists j :: 0 <= j < |history| && history[j].contact == x && IsNonEmptyPrefix(p, Lower(history[j].key))
  {
    if history != [] {
      var h := history[..|history| - 1];
      MatchingMembership(h, p, x);
      if x in Matching(h, p) {
        var j :| 0 <= j < |h| && h[j].contact == x && IsNonEmptyPrefix(p, Lower(h[j].key));
        assert history[j] == h[j];
      }
      if exists j :: 0 <= j < |history| && history[j].contact == x && IsNonEmptyPrefix(p, Lower(history[j].key)) {
        var j :| 0 <= j < |history| && history[j].contact == x && IsNonEmptyPrefix(p, Lower(history[j].key));
        if j < |h| {
          assert h[j] == history[j];
        }
      }
    }
  }

  /** The empty prefix matches nothing: the root never holds contacts. */
  lemma {:induction false} MatchingEmpty<T>(history: seq<Entry<T>>)
    ensures Matching(history, []) == []
  {
    if history != [] {
      MatchingEmpty(history[..|history| - 1]);
    }
  }

  /** The lower-cased keys of all insertions so far. */
  ghost function KeysOf<T>(history: seq<Entry<T>>): set<string>
  {
    if history == [] then {} else KeysOf(history[..|history| - 1]) + {Lower(history[|history| - 1].key)}
  }

  /** The keys marked as ends are exactly the lower-cased inserted keys. */
  lemma {:induction false} KeysOfMembership<T>(history: seq<Entry<T>>, p: string)
    ensures p in KeysOf(history) <==> exists j :: 0 <= j < |history| && Lower(history[j].key) == p
  {
    if history != [] {
      var h := history[..|history| - 1];
      KeysOfMembership(h, p);
      if p in KeysOf(h) {
        var j :| 0 <= j < |h| && Lower(h[j].key) == p;
        assert history[j] == h[j];
      }
      if exists j :: 0 <= j < |history| && Lower(history[j].key) == p {
        var j :| 0 <= j < |history| && Lower(history[j].key) == p;
        if j < |h| {
          assert h[j] == history[j];
        }
      }
    }
  }

  /**
   * The arena is a tree named by `paths`: node 0 is the root with the empty path,
   * every other node hangs under an earlier node `parent[i]` by the character
   * `edge[i]`, every child link is such a step, and `index` maps each path back
   * to its node.
   */
  ghost predicate Shaped<T>(nodes: seq<TrieNode<T>>, paths: seq<string>, parent: seq<nat>, edge: seq<char>,
                            index: map<string, nat>)
  {
    && |nodes| == |paths| == |parent| == |edge| && 0 < |nodes| && paths[0] == []
    && (forall i {:trigger parent[i]} :: 0 < i < |nodes| ==>
          && parent[i] < i && paths[i] == paths[parent[i]] + [edge[i]]
          && edge[i] in nodes[parent[i]].children && nodes[parent[i]].children[edge[i]] == i)
    && (forall i, c :: 0 <= i < |nodes| && c in nodes[i].children ==>
          && 0 < nodes[i].children[c] < |nodes|
          && parent[nodes[i].children[c]] == i && edge[nodes[i].children[c]] == c)
    && (forall i :: 0 <= i < |nodes| ==> paths[i] in index && index[paths[i]] == i)
    && (forall p :: p in index ==> index[p] < |nodes| && paths[index[p]] == p)
  }

  /** Each node holds the contacts and the end mark that `history` gives its path; unnamed paths match nothing. */
  ghost predicate Abstracts<T>(nodes: seq<TrieNode<T>>, paths: seq<string>, index: map<string, nat>,
                               history: seq<Entry<T>>)
    requires |nodes| == |paths|
  {
    && (forall i :: 0 <= i < |nodes| ==>
          nodes[i].contacts == Matching(history, paths[i]) && (nodes[i].isEnd <==> paths[i] in KeysOf(history)))
    && (forall p :: p !in index ==> Matching(history, p) == [] && p !in KeysOf(history))
  }

  /**
   * The state in the middle of `insert(contact, ...)` after walking `walked`:
   * as `Abstracts`, except that the nodes on non-empty prefixes of `walked` also
   * hold `contact` at the end.
   */
  ghost predicate Walked<T>(nodes: seq<TrieNode<T>>, paths: seq<string>, index: map<string, nat>,
                            history: seq<Entry<T>>, contact: T, walked: string)
    requires |nodes| == |paths|
  {
    && (forall i :: 0 <= i < |nodes| ==>
          && nodes[i].contacts ==
               Matching(history, paths[i]) + (if IsNonEmptyPrefix(paths[i], walked) then [contact] else [])
          && (nodes[i].isEnd <==> paths[i] in KeysOf(history)))
    && (forall p :: p !in index ==> Matching(history, p) == [] && p !in KeysOf(history))
  }

  /** The node of `paths[i] + [ch]`, when there is one, is the child of node `i` under `ch`. */
  lemma ChildLink<T>(nodes: seq<TrieNode<T>>, paths: seq<string>, parent: seq<nat>, edge: seq<char>,
                     index: map<string, nat>, i: nat, ch: char)
    requires Shaped(nodes, paths, parent, edge, index) && i < |nodes|
    ensures paths[i] + [ch] in index <==> ch in nodes[i].children
    ensures ch in nodes[i].children ==>
      nodes[i].children[ch] < |nodes| && paths[nodes[i].children[ch]] == paths[i] + [ch]
  {
    var q := paths[i] + [ch];
    if q in index {
      var j := index[q];
      assert paths[j] == q;
      assert j != 0;
      assert paths[j] == paths[parent[j]] + [edge[j]];
      assert paths[parent[j]] == q[..|q| - 1] == paths[i];
      assert index[paths[parent[j]]] == parent[j];
    }
    if ch in nodes[i].children {
      var j := nodes[i].children[ch];
      assert parent[j] == i && edge[j] == ch;
      assert paths[j] == paths[parent[j]] + [edge[j]];
    }
  }

  /** Every prefix of a named path is named. */
  lemma {:induction false} PrefixClosed<T>(nodes: seq<TrieNode<T>>, paths: seq<string>, parent: seq<nat>,
                                           edge: seq<char>, index: map<string, nat>, p: string, m: nat)
    requires Shaped(nodes, paths, parent, edge, index) && p in index && m <= |p|
    ensures p[..m] in index
    decreases |p|
  {
    if m == |p| {
      assert p[..m] == p;
    } else {
      var j := index[p];
      assert paths[j] == p;
      assert j != 0;
      assert paths[j] == paths[parent[j]] + [edge[j]];
      var q := paths[parent[j]];
      assert q == p[..|p| - 1];
      PrefixClosed(nodes, paths, parent, edge, index, q, m);
      assert q[..m] == p[..m];
    }
  }

  /** Hanging a newIndex empty node under node `i` by `ch` keeps the arena a tree. */
  lemma AddChildShaped<T>(nodes: seq<TrieNode<T>>, paths: seq<string>, parent: seq<nat>, edge: seq<char>,
                          index: map<string, nat>, i: nat, ch: char,
                          nodes': seq<TrieNode<T>>, paths': seq<string>, parent': seq<nat>, edge': seq<char>,
                          index': map<string, nat>)
    requires Shaped(nodes, paths, parent, edge, index) && i < |nodes| && ch !in nodes[i].children
    requires nodes' == nodes[i := nodes[i].(children := nodes[i].children[ch := |nodes|])] + [TrieNode(map[], false, [])]
    requires paths' == paths + [paths[i] + [ch]] && parent' == parent + [i] && edge' == edge + [ch]
    requires index' == index[paths[i] + [ch] := |nodes|]
    ensures Shaped(nodes', paths', parent', edge', index')
  {
    ChildLink(nodes, paths, parent, edge, index, i, ch);
    forall j {:trigger parent'[j]} | 0 < j < |nodes'|
      ensures && parent'[j] < j && paths'[j] == paths'[parent'[j]] + [edge'[j]]
              && edge'[j] in nodes'[parent'[j]].children && nodes'[parent'[j]].children[edge'[j]] == j
    {
      if j < |nodes| {
        assert parent'[j] == parent[j];
        if parent[j] == i {
          assert edge[j] in nodes[i].children;
        }
      }
    }
    forall j, c | 0 <= j < |nodes'| && c in nodes'[j].children
      ensures && 0 < nodes'[j].children[c] < |nodes'|
              && parent'[nodes'[j].children[c]] == j && edge'[nodes'[j].children[c]] == c
    {
      if j < |nodes| && !(j == i && c == ch) {
        assert c in nodes[j].children && nodes'[j].children[c] == nodes[j].children[c];
      }
    }
    forall j | 0 <= j < |nodes'|
      ensures paths'[j] in index' && index'[paths'[j]] == j
    {
      if j < |nodes| {
        assert paths'[j] == paths[j];
      }
    }
  }

  /** Changing only the contacts or the end mark of node `j` keeps the arena a tree. */
  lemma ReplaceKeepsShape<T>(nodes: seq<TrieNode<T>>, paths: seq<string>, parent: seq<nat>, edge: seq<char>,
                             index: map<string, nat>, j: nat, v: TrieNode<T>)
    requires Shaped(nodes, paths, parent, edge, index) && j < |nodes| && v.children == nodes[j].children
    ensures Shaped(nodes[j := v], paths, parent, edge, index)
  {
    var nodes' := nodes[j := v];
    forall x {:trigger parent[x]} | 0 < x < |nodes'|
      ensures edge[x] in nodes'[parent[x]].children && nodes'[parent[x]].children[edge[x]] == x
    {
      assert nodes'[parent[x]].children == nodes[parent[x]].children;
    }
    forall x, c | 0 <= x < |nodes'| && c in nodes'[x].children
      ensures && 0 < nodes'[x].children[c] < |nodes'|
              && parent[nodes'[x].children[c]] == x && edge[nodes'[x].children[c]] == c
    {
      assert nodes'[x].children == nodes[x].children;
    }
  }

  /** `insert` starts its walk from a valid tree: nothing is added yet. */
  lemma WalkStart<T>(nodes: seq<TrieNode<T>>, paths: seq<string>, index: map<string, nat>,
                     history: seq<Entry<T>>, contact: T)
    requires |nodes| == |paths| && Abstracts(nodes, paths, index, history)
    ensures Walked(nodes, paths, index, history, contact, [])
  {
  }

  /** The newIndex node of `AddChildShaped` holds what the walk so far says: nothing. */
  lemma AddChildWalked<T>(nodes: seq<TrieNode<T>>, paths: seq<string>, index: map<string, nat>,
                          history: seq<Entry<T>>, contact: T, walked: string, i: nat, ch: char,
                          nodes': seq<TrieNode<T>>, paths': seq<string>, index': map<string, nat>)
    requires |nodes| == |paths| && i < |nodes| && paths[i] == walked && paths[i] + [ch] !in index
    requires Walked(nodes, paths, index, history, contact, walked)
    requires nodes' == nodes[i := nodes[i].(children := nodes[i].children[ch := |nodes|])] + [TrieNode(map[], false, [])]
    requires paths' == paths + [paths[i] + [ch]] && index' == index[paths[i] + [ch] := |nodes|]
    ensures Walked(nodes', paths', index', history, contact, walked)
  {
    assert !IsNonEmptyPrefix(paths'[|nodes|], walked);
    forall j | 0 <= j < |nodes|
      ensures nodes'[j].contacts == nodes[j].contacts && nodes'[j].isEnd == nodes[j].isEnd && paths'[j] == paths[j]
    {
    }
  }

  /** Appending `contact` at the node of `k[..i + 1]` extends the walk by one character. */
  lemma AppendWalked<T>(nodes: seq<TrieNode<T>>, paths: seq<string>, parent: seq<nat>, edge: seq<char>,
                        index: map<string, nat>, history: seq<Entry<T>>, contact: T, k: string, i: nat, j: nat,
                        nodes': seq<TrieNode<T>>)
    requires Shaped(nodes, paths, parent, edge, index) && i < |k| && j < |nodes| && paths[j] == k[..i + 1]
    requires Walked(nodes, paths, index, history, contact, k[..i])
    requires nodes' == nodes[j := nodes[j].(contacts := nodes[j].contacts + [contact])]
    ensures Shaped(nodes', paths, parent, edge, index) && Walked(nodes', paths, index, history, contact, k[..i + 1])
  {
    ReplaceKeepsShape(nodes, paths, parent, edge, index, j, nodes[j].(contacts := nodes[j].contacts + [contact]));
    forall x | 0 <= x < |nodes|
      ensures nodes'[x].contacts ==
        Matching(history, paths[x]) + (if IsNonEmptyPrefix(paths[x], k[..i + 1]) then [contact] else [])
    {
      PrefixStep(paths[x], k, i);
      if x != j {
        assert paths[x] != paths[j] by {
          assert index[paths[x]] == x && index[paths[j]] == j;
        }
      } else {
        assert !IsNonEmptyPrefix(paths[j], k[..i]);
      }
    }
  }

  /** Marking the end of the walked key completes one insertion. */
  lemma FinishWalk<T>(nodes: seq<TrieNode<T>>, paths: seq<string>, parent: seq<nat>, edge: seq<char>,
                      index: map<string, nat>, history: seq<Entry<T>>, contact: T, key: string, j: nat,
                      nodes': seq<TrieNode<T>>, h': seq<Entry<T>>)
    requires Shaped(nodes, paths, parent, edge, index) && j < |nodes| && paths[j] == Lower(key)
    requires Walked(nodes, paths, index, history, contact, Lower(key))
    requires nodes' == nodes[j := nodes[j].(isEnd := true)] && h' == history + [Entry(contact, key)]
    ensures Shaped(nodes', paths, parent, edge, index) && Abstracts(nodes', paths, index, h')
  {
    ReplaceKeepsShape(nodes, paths, parent, edge, index, j, nodes[j].(isEnd := true));
    assert h'[..|h'| - 1] == history;
    assert KeysOf(h') == KeysOf(history) + {Lower(key)};
    forall x | 0 <= x < |nodes| && x != j
      ensures paths[x] != Lower(key)
    {
      assert index[paths[x]] == x && index[paths[j]] == j;
    }
    forall p | p !in index
      ensures Matching(h', p) == [] && p !in KeysOf(h')
    {
      if IsNonEmptyPrefix(p, Lower(key)) {
        PrefixClosed(nodes, paths, parent, edge, index, Lower(key), |p|);
      }
    }
  }

  class Trie<T> {
    var nodes: seq<TrieNode<T>>
    ghost var paths: seq<string>
    ghost var parent: seq<nat>
    ghost var edge: seq<char>
    ghost var index: map<string, nat>
    ghost var history: seq<Entry<T>>

    ghost predicate Valid()
      reads this
    {
      Shaped(nodes, paths, parent, edge, index) && Abstracts(nodes, paths, index, history)
    }

    /** `Trie()`: a lone root with no children and no contacts. */
    constructor ()
      ensures Valid() && history == []
      ensures nodes == [TrieNode(map[], false, [])]
    {
      nodes := [TrieNode(map[], false, [])];
      paths := [[]];
      parent := [0];
      edge := ['a'];
      index := map[[] := 0];
      history := [];
    }

    /**
     * One step of `insert`: the child of `node` under `ch`, created empty first
     * when missing. The contents seen so far are unchanged.
     */
    method Descend(node: nat, ch: char, ghost contact: T, ghost walked: string) returns (child: nat)
      requires Shaped(nodes, paths, parent, edge, index) && node < |nodes| && paths[node] == walked
      requires Walked(nodes, paths, index, history, contact, walked)
      modifies this
      ensures Shaped(nodes, paths, parent, edge, index) && Walked(nodes, paths, index, history, contact, walked)
      ensures child < |nodes| && paths[child] == walked + [ch]
      ensures history == old(history)
    {
      if ch !in nodes[node].children {
        ChildLink(nodes, paths, parent, edge, index, node, ch);
        ghost var nodes0, paths0, parent0, edge0, index0 := nodes, paths, parent, edge, index;
        var newIndex := |nodes|;
        nodes := nodes[node := nodes[node].(children := nodes[node].children[ch := newIndex])]
                 + [TrieNode(map[], false, [])];
        paths := paths + [paths[node] + [ch]];
        parent := parent + [node];
        edge := edge + [ch];
        index := index[walked + [ch] := newIndex];
        AddChildWalked(nodes0, paths0, index0, history, contact, walked, node, ch, nodes, paths, index);
        AddChildShaped(nodes0, paths0, parent0, edge0, index0, node, ch, nodes, paths, parent, edge, index);
      }
      ChildLink(nodes, paths, parent, edge, index, node, ch);
      child := nodes[node].children[ch];
    }

    /** One pass of the loop of `insert`: step to the child under `k[i]` and append `contact` to it. */
    method Visit(node: nat, contact: T, k: string, i: nat) returns (child: nat)
      requires Shaped(nodes, paths, parent, edge, index) && i < |k| && node < |nodes| && paths[node] == k[..i]
      requires Walked(nodes, paths, index, history, contact, k[..i])
      modifies this
      ensures Shaped(nodes, paths, parent, edge, index) && Walked(nodes, paths, index, history, contact, k[..i + 1])
      ensures child < |nodes| && paths[child] == k[..i + 1]
      ensures history == old(history)
    {
      var ch := k[i];
      assert k[..i + 1] == k[..i] + [ch];
      child := Descend(node, ch, contact, k[..i]);
      ghost var nodes0 := nodes;
      nodes := nodes[child := nodes[child].(contacts := nodes[child].contacts + [contact])];
      AppendWalked(nodes0, paths, parent, edge, index, history, contact, k, i, child, nodes);
    }

    /**
     * `insert(contact, key)`: walks the lower-cased key from the root, creating each
     * missing child, appends `contact` to every node on the way (never the root) and
     * marks the last node as the end of a key.
     */
    method Insert(contact: T, key: string)
      requires Valid()
      modifies this
      ensures Valid()
      ensures history == old(history) + [Entry(contact, key)]
    {
      var k := Lower(key);
      var node: nat := 0;
      var i := 0;
      WalkStart(nodes, paths, index, history, contact);
      while i < |k|
        invariant 0 <= i <= |k|
        invariant Shaped(nodes, paths, parent, edge, index)
        invariant node < |nodes| && paths[node] == k[..i]
        invariant Walked(nodes, paths, index, history, contact, k[..i])
        invariant history == old(history)
      {
        node := Visit(node, contact, k, i);
        i := i + 1;
      }
      assert k[..i] == k;
      ghost var nodes0, history0 := nodes, history;
      history := history + [Entry(contact, key)];
      nodes := nodes[node := nodes[node].(isEnd := true)];
      FinishWalk(nodes0, paths, parent, edge, index, history0, contact, key, node, nodes, history);
    }

    /**
     * `search_prefix(prefix)`: the contacts of the node the lower-cased prefix leads
     * to, or [] as soon as a character has no child; that is, the contacts of every
     * insertion whose key starts with the prefix, in insertion order.
     */
    method SearchPrefix(prefix: string) returns (r: seq<T>)
      requires Valid()
      ensures r == Matching(history, Lower(prefix))
    {
      var k := Lower(prefix);
      var node: nat := 0;
      var i := 0;
      while i < |k|
        invariant 0 <= i <= |k|
        invariant node < |nodes| && paths[node] == k[..i]
      {
        var ch := k[i];
        assert k[..i + 1] == k[..i] + [ch];
        ChildLink(nodes, paths, parent, edge, index, node, ch);
        if ch !in nodes[node].children {
          assert k !in index by {
            if k in index {
              PrefixClosed(nodes, paths, parent, edge, index, k, i + 1);
            }
          }
          return [];
        }
        node := nodes[node].children[ch];
        i := i + 1;
      }
      assert k[..i] == k;
      r := nodes[node].contacts;
    }
  }
}
