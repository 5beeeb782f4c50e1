/** Viewport placement of the two floating panels: `DropdownMenu` of
    src/components/ui/dropdown-menu.tsx and `TagPopover` of
    src/components/dashboard/tag-popover.tsx. Coordinates are CSS pixels. */
module Positioning {
  import opened Wrappers

  /** The parts of a `DOMRect` the placement reads. */
  datatype Rect = Rect(top: real, bottom: real, left: real, right: real, width: real, height: real)

  datatype Position = Position(top: real, left: real)

  /** The gap kept to the viewport edges. */
  const Padding: real := 8.0
  /** The gap between the trigger and the panel. */
  const Gap: real := 4.0

  function Max(a: real, b: real): real { if a < b then b else a }
  function Min(a: real, b: real): real { if a < b then a else b }

  datatype Align = AlignLeft | AlignRight

  /** Where the dropdown goes: below the trigger, or above it when it would run
      past the bottom edge; the horizontal start raised to the left edge and then
      lowered to fit the right edge, which therefore wins. */
  function DropdownPlacement(trigger: Rect, menu: Rect, align: Align, innerWidth: real, innerHeight: real): Position
  {
    var below := trigger.bottom + Gap;
    var start := if align == AlignRight then trigger.right - menu.width else trigger.left;
    Position(if below + menu.height > innerHeight - Padding then trigger.top - menu.height - Gap else below,
             Min(Max(start, Padding), innerWidth - menu.width - Padding))
  }

  /** The dropdown never runs past the right edge, and when it fits between the
      paddings it also keeps off the left edge. */
  lemma DropdownBounds(trigger: Rect, menu: Rect, align: Align, innerWidth: real, innerHeight: real)
    ensures var p := DropdownPlacement(trigger, menu, align, innerWidth, innerHeight);
            p.left + menu.width <= innerWidth - Padding &&
            (menu.width <= innerWidth - 2.0 * Padding ==> Padding <= p.left)
  {
  }

  /** The size the popover is assumed to have (its class makes it 256 px wide). */
  const PopoverWidth: real := 260.0
  const PopoverHeight: real := 200.0

  /** Where the popover goes: below the trigger or above it, as the dropdown; the
      right edge is fitted first and the left edge last, so the left edge wins. */
  function PopoverPlacement(trigger: Rect, innerWidth: real, innerHeight: real): Position
  {
    var below := trigger.bottom + Gap;
    Position(if below + PopoverHeight > innerHeight - Padding then trigger.top - PopoverHeight - Gap else below,
             Max(Min(trigger.left, innerWidth - PopoverWidth - Padding), Padding))
  }

  /** The popover always keeps off the left edge, and off the right one too when
      it fits between the paddings. */
  lemma PopoverBounds(trigger: Rect, innerWidth: real, innerHeight: real)
    ensures var p := PopoverPlacement(trigger, innerWidth, innerHeight);
            Padding <= p.left &&
            (PopoverWidth <= innerWidth - 2.0 * Padding ==> p.left + PopoverWidth <= innerWidth - Padding)
  {
  }

  /** In a viewport too narrow for either panel the two orders of clamping part:
      the dropdown is pushed past the left edge, the popover is not. */
  lemma ClampOrderMatters()
    ensures DropdownPlacement(Rect(0.0, 20.0, 0.0, 40.0, 176.0, 100.0), Rect(0.0, 0.0, 0.0, 0.0, 176.0, 100.0),
                              AlignLeft, 100.0, 800.0).left == -84.0
    ensures PopoverPlacement(Rect(0.0, 20.0, 0.0, 40.0, 40.0, 20.0), 100.0, 800.0).left == Padding
  {
  }

  class DropdownMenu {
    const align: Align
    var position: Position

    /** `align` defaults to `"right"`; the first position is the origin. */
    constructor (align: Option<Align>)
      ensures this.align == align.GetOr(AlignRight) && position == Position(0.0, 0.0)
    {
      this.align := align.GetOr(AlignRight);
      position := Position(0.0, 0.0);
    }

    /** `updatePosition`: nothing without both the trigger and the mounted menu. */
    method UpdatePosition(trigger: Option<Rect>, menu: Option<Rect>, innerWidth: real, innerHeight: real)
      modifies this`position
      ensures trigger.None? || menu.None? ==> position == old(position)
      ensures trigger.Some? && menu.Some? ==>
                position == DropdownPlacement(trigger.value, menu.value, align, innerWidth, innerHeight)
    {
      if trigger.None? || menu.None? {
        return;
      }
      var t := trigger.value;
      var m := menu.value;
      var top := t.bottom + 4.0;
      var left := if align == AlignRight then t.right - m.width else t.left;
      if top + m.height > innerHeight - Padding {
        top := t.top - m.height - 4.0;
      }
      if left < Padding {
        left := Padding;
      }
      if left + m.width > innerWidth - Padding {
        left := innerWidth - m.width - Padding;
      }
      position := Position(top, left);
    }
  }

  class TagPopover {
    var position: Position

    constructor ()
      ensures position == Position(0.0, 0.0)
    {
      position := Position(0.0, 0.0);
    }

    /** `updatePosition`: nothing without the trigger. */
    method UpdatePosition(trigger: Option<Rect>, innerWidth: real, innerHeight: real)
      modifies this`position
      ensures trigger.None? ==> position == old(position)
      ensures trigger.Some? ==> position == PopoverPlacement(trigger.value, innerWidth, innerHeight)
    {
      if trigger.None? {
        return;
      }
      var t := trigger.value;
      var top := t.bottom + 4.0;
      var left := t.left;
      if left + 260.0 > innerWidth - Padding {
        left := innerWidth - 260.0 - Padding;
      }
      if left < Padding {
        left := Padding;
      }
      if top + 200.0 > innerHeight - Padding {
        top := t.top - 200.0 - 4.0;
      }
      position := Position(top, left);
    }
  }
}
