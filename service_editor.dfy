/**
 * The settings window's service list editor (renderer/settings.js): the list
 * being edited, the index of the entry open in the edit dialog, and the
 * handlers that reorder, delete, hide and save entries. Each change is sent
 * to the main process (`saveAndRefresh`); `saved` records those lists. Form
 * fields, `confirm` answers, drag data and a freshly generated id are
 * parameters.
 */
module ServiceEditor {
  import opened Wrappers
  import opened Text
  import opened Services
  import opened AppConfig

  /** `s.splice(i, 1)` on a copy: the element at `i` removed, later ones shifted down by one. */
  function RemoveAt<T>(s: seq<T>, i: nat): (r: seq<T>)
    requires i < |s|
    ensures |r| == |s| - 1
    ensures forall k :: 0 <= k < i ==> r[k] == s[k]
    ensures forall k :: i <= k < |r| ==> r[k] == s[k + 1]
  {
    s[..i] + s[i + 1..]
  }

  /** `s.splice(i, 0, x)` on a copy: `x` put at `i`, the elements from `i` on shifted up by one. */
  function InsertAt<T>(s: seq<T>, i: nat, x: T): (r: seq<T>)
    requires i <= |s|
    ensures |r| == |s| + 1 && r[i] == x
    ensures forall k :: 0 <= k < i ==> r[k] == s[k]
    ensures forall k :: i < k < |r| ==> r[k] == s[k - 1]
  {
    s[..i] + [x] + s[i..]
  }

  /** The drop handler's two splices: the element at `from` moved to position `to`. */
  function Move<T>(s: seq<T>, from: nat, to: nat): seq<T>
    requires from < |s| && to < |s|
  {
    InsertAt(RemoveAt(s, from), to, s[from])
  }

  lemma RemoveAtCount<T>(s: seq<T>, i: nat)
    requires i < |s|
    ensures multiset(RemoveAt(s, i)) + multiset{s[i]} == multiset(s)
  {
    assert s == s[..i] + [s[i]] + s[i + 1..];
  }

  lemma InsertAtCount<T>(s: seq<T>, i: nat, x: T)
    requires i <= |s|
    ensures multiset(InsertAt(s, i, x)) == multiset(s) + multiset{x}
  {
    assert s == s[..i] + s[i..];
  }

  /** A move is a permutation that puts the moved element at its target. */
  lemma MovePermutes<T>(s: seq<T>, from: nat, to: nat)
    requires from < |s| && to < |s|
    ensures |Move(s, from, to)| == |s| && Move(s, from, to)[to] == s[from]
    ensures multiset(Move(s, from, to)) == multiset(s)
  {
    RemoveAtCount(s, from);
    InsertAtCount(RemoveAt(s, from), to, s[from]);
  }

  /** Apart from the moved element, every element keeps its relative order. */
  lemma MoveKeepsOrder<T>(s: seq<T>, from: nat, to: nat)
    requires from < |s| && to < |s|
    ensures RemoveAt(Move(s, from, to), to) == RemoveAt(s, from)
  {
    var rest := RemoveAt(s, from);
    var m := Move(s, from, to);
    assert RemoveAt(m, to) == rest by {
      forall k | 0 <= k < |rest| ensures RemoveAt(m, to)[k] == rest[k] {
        if k < to {
          assert RemoveAt(m, to)[k] == m[k];
        } else {
          assert RemoveAt(m, to)[k] == m[k + 1];
        }
      }
    }
  }

  /** Putting an element back where it was removed gives back the list. */
  lemma InsertRemove<T>(s: seq<T>, i: nat)
    requires i < |s|
    ensures InsertAt(RemoveAt(s, i), i, s[i]) == s
  {
    assert s == s[..i] + [s[i]] + s[i + 1..];
  }

  /** Dragging the moved element back to where it came from restores the list. */
  lemma MoveBack<T>(s: seq<T>, from: nat, to: nat)
    requires from < |s| && to < |s|
    ensures Move(Move(s, from, to), to, from) == s
  {
    var m := Move(s, from, to);
    MovePermutes(s, from, to);
    MoveKeepsOrder(s, from, to);
    InsertRemove(s, from);
  }

  /** A move onto its own position changes nothing. */
  lemma MoveInPlace<T>(s: seq<T>, i: nat)
    requires i < |s|
    ensures Move(s, i, i) == s
  {
    InsertRemove(s, i);
  }

  /** The visibility toggle (settings.js:70, 94-97): the flag becomes the negation of "not literally `false`". */
  function Toggled(s: Service): (r: Service)
    ensures r.visible.Some? && (ListedVisible(r) <==> !ListedVisible(s))
    ensures r.(visible := s.visible) == s
  {
    s.(visible := Some(!ListedVisible(s)))
  }

  /** Toggling twice restores an entry with a flag, and makes a missing flag an explicit `true`. */
  lemma ToggleTwice(s: Service)
    ensures Toggled(Toggled(s)) == s.(visible := Some(ListedVisible(s)))
    ensures s.visible.Some? ==> Toggled(Toggled(s)) == s
  {
    var b := ListedVisible(s);
    assert Toggled(Toggled(s)) == s.(visible := Some(b));
    if s.visible.Some? {
      if s.visible.value {
        assert s.visible == Some(true);
      } else {
        assert s.visible == Some(false);
      }
      assert s.visible == Some(b);
      assert s.(visible := Some(b)) == s;
    }
  }

  /** `parseInt(text) || fallback` (settings.js:178-179): `NaN` and `0` fall back. */
  function QuickDimension(text: string, fallback: int): (r: int)
    requires fallback != 0
    ensures r != 0
    ensures ParseInt(text).Some? && ParseInt(text).value != 0 ==> r == ParseInt(text).value
    ensures ParseInt(text) == None || ParseInt(text) == Some(0) ==> r == fallback
  {
    match ParseInt(text)
    case Some(n) => if n != 0 then n else fallback
    case None => fallback
  }

  /** The form's entries: the text of each field as the dialog holds it. */
  datatype Form = Form(name: string, url: string, color: string, windowMode: string, width: string, height: string)

  /** The service the form describes (settings.js:173-192), with the given id, icon and flag. */
  function FromForm(form: Form, id: string, icon: string, visible: Option<bool>): (r: Service)
    ensures r.id == id && r.icon == icon && r.visible == visible
    ensures r.name == Trim(form.name) && r.url == Trim(form.url)
    ensures r.color == form.color && r.windowMode == form.windowMode
    ensures r.quickWindowSize == Some(Size(QuickDimension(form.width, 500), QuickDimension(form.height, 700)))
  {
    Service(id, Trim(form.name), Trim(form.url), icon, form.color, form.windowMode,
            Some(Size(QuickDimension(form.width, 500), QuickDimension(form.height, 700))), visible)
  }

  /** The form can be saved: neither the trimmed name nor the trimmed URL is empty (settings.js:181). */
  predicate Complete(form: Form) {
    Trim(form.name) != "" && Trim(form.url) != ""
  }

  /**
   * The list `saveService` sends (settings.js:172-202), `None` when the form
   * is incomplete and nothing is saved: the entry being edited is replaced,
   * keeping its id, icon and flag, or, with no entry being edited, a new one is
   * appended with the star icon and shown on the bar; every other entry stays.
   */
  function SavedList(services: seq<Service>, editingIndex: int, form: Form, newId: string): (r: Option<seq<Service>>)
    requires -1 <= editingIndex < |services|
    ensures r.None? <==> !Complete(form)
    ensures r.Some? ==> |r.value| == |services| + (if editingIndex >= 0 then 0 else 1)
    ensures r.Some? ==> forall k :: 0 <= k < |services| && k != editingIndex ==> r.value[k] == services[k]
    ensures r.Some? && editingIndex >= 0 ==>
      var before := services[editingIndex];
      r.value[editingIndex] == FromForm(form, before.id, before.icon, before.visible)
    ensures r.Some? && editingIndex < 0 ==> r.value[|services|] == FromForm(form, newId, "⭐", Some(true))
  {
    if !Complete(form) then None
    else if editingIndex >= 0 then
      var before := services[editingIndex];
      Some(services[editingIndex := FromForm(form, before.id, before.icon, before.visible)])
    else Some(services + [FromForm(form, newId, "⭐", Some(true))])
  }

  /** Editing an entry keeps the list's ids. */
  lemma EditKeepsIds(s: seq<Service>, i: nat, form: Form)
    requires i < |s|
    ensures Ids(s[i := FromForm(form, s[i].id, s[i].icon, s[i].visible)]) == Ids(s)
  {
    var x := FromForm(form, s[i].id, s[i].icon, s[i].visible);
    assert x.id == s[i].id;
    var e := s[i := x];
    assert |e| == |s| && forall k :: 0 <= k < |e| ==> e[k].id == s[k].id;
    forall id | id in Ids(s) ensures id in Ids(e) {
      var k :| 0 <= k < |s| && s[k].id == id;
      assert e[k].id == id;
    }
    forall id | id in Ids(e) ensures id in Ids(s) {
      var k :| 0 <= k < |e| && e[k].id == id;
      assert s[k].id == id;
    }
  }

  /** The settings window's module-level state. */
  class Editor {
    var services: seq<Service>
    var editingIndex: int
    /** The lists sent to the main process, oldest first. */
    ghost var saved: seq<seq<Service>>

    /** The window after `getServices` answered (settings.js:16-20). */
    constructor (services: seq<Service>)
      ensures this.services == services && editingIndex == -1 && saved == []
    {
      this.services, editingIndex, saved := services, -1, [];
    }

    /** The drop handler of the entry at `index` (settings.js:121-129); `from` is the parsed drag data, `None` for `NaN`. */
    method Drop(from: Option<int>, index: nat)
      requires index < |services|
      requires from.Some? ==> 0 <= from.value < |services|
      modifies this
      ensures from == Some(index) ==> services == old(services) && saved == old(saved)
      ensures from != Some(index) ==>
        && services == Move(old(services), if from.Some? then from.value else 0, index)
        && saved == old(saved) + [services]
      ensures editingIndex == old(editingIndex)
    {
      if from != Some(index) {
        var f := if from.Some? then from.value else 0;
        var moved := services[f];
        services := services[..f] + services[f + 1..];
        services := services[..index] + [moved] + services[index..];
        saved := saved + [services];
      }
    }

    /** The delete button of the entry at `index` (settings.js:103-107), with the answer to `confirm`. */
    method Delete(index: nat, confirmed: bool)
      requires index < |services|
      modifies this
      ensures services == (if confirmed then RemoveAt(old(services), index) else old(services))
      ensures saved == (if confirmed then old(saved) + [services] else old(saved))
      ensures editingIndex == old(editingIndex)
    {
      if confirmed {
        services := services[..index] + services[index + 1..];
        saved := saved + [services];
      }
    }

    /** The visibility button of the entry at `index` (settings.js:94-97). */
    method ToggleVisibility(index: nat)
      requires index < |services|
      modifies this
      ensures services == old(services)[index := Toggled(old(services)[index])]
      ensures saved == old(saved) + [services] && editingIndex == old(editingIndex)
    {
      var isVisible := services[index].visible != Some(false);
      services := services[index := services[index].(visible := Some(!isVisible))];
      saved := saved + [services];
    }

    /** `openModal(index)` (settings.js:136-164): -1 opens the dialog to add an entry. */
    method OpenModal(index: int)
      requires -1 <= index < |services|
      modifies this
      ensures editingIndex == index && services == old(services) && saved == old(saved)
    {
      editingIndex := index;
    }

    /** `closeModal` (settings.js:166-169). */
    method CloseModal()
      modifies this
      ensures editingIndex == -1 && services == old(services) && saved == old(saved)
    {
      editingIndex := -1;
    }

    /**
     * `saveService` (settings.js:172-202): an incomplete form changes nothing
     * and leaves the dialog open; otherwise the list becomes `SavedList`, is
     * sent, and the dialog closes.
     */
    method SaveService(form: Form, newId: string)
      requires -1 <= editingIndex < |services|
      modifies this
      ensures var r := SavedList(old(services), old(editingIndex), form, newId);
        r.None? ==> services == old(services) && editingIndex == old(editingIndex) && saved == old(saved)
      ensures var r := SavedList(old(services), old(editingIndex), form, newId);
        r.Some? ==> services == r.value && editingIndex == -1 && saved == old(saved) + [services]
    {
      var name := Trim(form.name);
      var url := Trim(form.url);
      if name == "" || url == "" {
        return;
      }
      if editingIndex >= 0 {
        var before := services[editingIndex];
        services := services[editingIndex := FromForm(form, before.id, before.icon, before.visible)];
      } else {
        services := services + [FromForm(form, newId, "⭐", Some(true))];
      }
      CloseModal();
      saved := saved + [services];
    }
  }
}
