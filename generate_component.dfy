/**
 * The React component generator: validates a PascalCase component name and a
 * template type, refuses to overwrite an existing file, and writes the chosen
 * template with the name substituted into `frontend/components/<name>.jsx`.
 */
module GenerateComponent {
  import opened Wrappers
  import opened Strings
  import opened FileTree

  // ---------------------------------------------------------------------------
  // Name validation

  const NameRequired := "Nome componente richiesto"
  const NotPascalCase := "Il nome deve essere in PascalCase (es: MyComponent)"

  predicate IsAsciiAlnum(c: char) {
    IsAsciiUpper(c) || IsAsciiLower(c) || IsDigit(c)
  }

  /** `/^[A-Z][a-zA-Z0-9]*$/`: an ASCII capital followed by ASCII letters and digits only. */
  predicate IsPascalCase(name: string) {
    |name| >= 1 && IsAsciiUpper(name[0]) && forall i :: 1 <= i < |name| ==> IsAsciiAlnum(name[i])
  }

  /**
   * `validateComponentName`: `None` when the name is valid, else the error.
   * A missing or empty name is reported before the PascalCase test.
   */
  function ValidateName(name: Option<string>): (error: Option<string>)
    ensures error.None? <==> name.Some? && IsPascalCase(name.value)
    ensures error == Some(NameRequired) <==> name.None? || name.value == ""
    ensures error.Some? ==> error.value in {NameRequired, NotPascalCase}
  {
    if name.None? || name.value == "" then Some(NameRequired)
    else if !IsPascalCase(name.value) then Some(NotPascalCase)
    else None
  }

  // ---------------------------------------------------------------------------
  // Templates

  datatype TemplateType = Section | Card | Interactive

  /** The keys of the `TEMPLATES` object, in definition order. */
  const TemplateKeys: seq<string> := ["section", "card", "interactive"]

  const InvalidType := "Tipo non valido. Usa: " + Join(TemplateKeys, ", ")

  /** The template a key names among the object's own keys. */
  function TemplateFor(key: string): (t: Option<TemplateType>)
    ensures t.Some? <==> key in TemplateKeys
  {
    if key == "section" then Some(Section)
    else if key == "card" then Some(Card)
    else if key == "interactive" then Some(Interactive)
    else None
  }

  /**
   * The properties every plain object inherits from `Object.prototype`. Each
   * holds a function or an object, so `TEMPLATES[key]` is truthy for them.
   */
  const ObjectPrototypeKeys: set<string> := {
    "constructor", "hasOwnProperty", "isPrototypeOf", "propertyIsEnumerable",
    "toString", "toLocaleString", "valueOf", "__proto__",
    "__defineGetter__", "__defineSetter__", "__lookupGetter__", "__lookupSetter__"
  }

  /** The type test as written, `!TEMPLATES[type]`, lets inherited keys through. */
  predicate PassesTypeCheckAsWritten(key: string) {
    key in TemplateKeys || key in ObjectPrototypeKeys
  }

  /**
   * `toString` passes the type test as written although it names no template;
   * `TEMPLATES.toString(name)` then returns `[object Object]`, which would be
   * written as the component.
   */
  lemma InheritedKeyPassesTypeCheck()
    ensures PassesTypeCheckAsWritten("toString") && TemplateFor("toString").None?
  {
  }

  const Declaration := "export default function "

  /** `TEMPLATES[type](name)`: the template text with the component name substituted. */
  function Template(t: TemplateType, name: string): string {
    match t
    case Section => SectionPreamble + Declaration + name + "(" + SectionBody + name + SectionEnd
    case Card => CardPreamble + Declaration + name + "(" + CardBody
    case Interactive => InteractivePreamble + Declaration + name + "(" + InteractiveBody
  }

  function Preamble(t: TemplateType): string {
    match t
    case Section => SectionPreamble
    case Card => CardPreamble
    case Interactive => InteractivePreamble
  }

  lemma DeclarationAt(pre: string, name: string, rest: string)
    ensures OccursAt(pre + Declaration + name + "(" + rest, Declaration + name + "(", |pre|)
  {
    var d := Declaration + name + "(";
    assert pre + Declaration + name + "(" + rest == pre + d + rest;
    assert (pre + d + rest)[|pre|..|pre| + |d|] == d;
  }

  /** Every template declares the component as the module's default export, under its name. */
  lemma TemplateDeclaresComponent(t: TemplateType, name: string)
    ensures OccursAt(Template(t, name), Declaration + name + "(", |Preamble(t)|)
  {
    match t
    case Section => DeclarationAt(SectionPreamble, name, SectionBody + name + SectionEnd);
    case Card => DeclarationAt(CardPreamble, name, CardBody);
    case Interactive => DeclarationAt(InteractivePreamble, name, InteractiveBody);
  }

  // ---------------------------------------------------------------------------
  // Generation

  /** The components directory, relative to the repository root. */
  const ComponentsPath: Path := ["frontend", "components"]

  function ExistsError(filename: string): string {
    "Il componente " + filename + " esiste gi\U{00E0}"
  }

  datatype Generated = Generated(name: string, key: string, path: Path, filename: string)

  /**
   * `generateComponent` when the directory holds `entries` (`None` when it does
   * not exist): the first failing check in the order name, type, existing file.
   */
  function Generate(entries: Option<map<Name, Node>>, name: Option<string>, key: string): (r: Result<Generated, string>)
    ensures r.Success? <==>
      && ValidateName(name).None?
      && TemplateFor(key).Some?
      && (entries.Some? ==> name.value + ".jsx" !in entries.value)
    ensures ValidateName(name).Some? ==> r == Failure(ValidateName(name).value)
    ensures ValidateName(name).None? && TemplateFor(key).None? ==> r == Failure(InvalidType)
    ensures r.Success? ==> r.value.filename == name.value + ".jsx" && r.value.path == ComponentsPath + [r.value.filename]
  {
    var error := ValidateName(name);
    if error.Some? then Failure(error.value)
    else if TemplateFor(key).None? then Failure(InvalidType)
    else
      var filename := name.value + ".jsx";
      if entries.Some? && filename in entries.value then Failure(ExistsError(filename))
      else Success(Generated(name.value, key, ComponentsPath + [filename], filename))
  }

  /** The components directory: whether it exists, and its entries by name. */
  class ComponentsDir {
    var present: bool
    var entries: map<Name, Node>

    /** A directory that does not exist has no entries. */
    ghost predicate Valid()
      reads this
    {
      !present ==> entries == map[]
    }

    constructor(present: bool, entries: map<Name, Node>)
      requires !present ==> entries == map[]
      ensures Valid() && this.present == present && this.entries == entries
    {
      this.present := present;
      this.entries := entries;
    }

    function Listing(): Option<map<Name, Node>>
      reads this
    {
      if present then Some(entries) else None
    }

    /**
     * `generateComponent`: the checks in order, `mkdirSync` once name and type
     * are valid, then the existence test and the single write. An existing
     * file is never replaced.
     */
    method GenerateComponent(name: Option<string>, key: string) returns (r: Result<Generated, string>)
      requires Valid()
      modifies this
      ensures Valid()
      ensures r == Generate(old(Listing()), name, key)
      ensures present == (old(present) || (ValidateName(name).None? && TemplateFor(key).Some?))
      ensures r.Failure? ==> entries == old(entries)
      ensures r.Success? ==>
        entries == old(entries)[r.value.filename := File(|Template(TemplateFor(key).value, name.value)|,
                                                         Template(TemplateFor(key).value, name.value))]
    {
      var error := ValidateName(name);
      if error.Some? {
        return Failure(error.value);
      }
      var t := TemplateFor(key);
      if t.None? {
        return Failure(InvalidType);
      }
      if !present {
        present := true;
      }
      var filename := name.value + ".jsx";
      if filename in entries {
        return Failure(ExistsError(filename));
      }
      var content := Template(t.value, name.value);
      entries := entries[filename := File(|content|, content)];
      return Success(Generated(name.value, key, ComponentsPath + [filename], filename));
    }

    /**
     * The command line: without a name, a usage message and exit 1 before
     * anything is checked; a missing or empty type means `section`. Exit 0
     * exactly when the component was written.
     */
    method Cli(nameArg: Option<string>, typeArg: Option<string>) returns (exitCode: nat)
      requires Valid()
      modifies this
      ensures Valid()
      ensures exitCode <= 1
      ensures nameArg.None? || nameArg.value == "" ==> exitCode == 1 && unchanged(this)
      ensures exitCode == 0 ==> nameArg.Some? && old(Listing()).Some? ==> nameArg.value + ".jsx" !in old(entries)
      ensures exitCode == 0 <==>
        Generate(old(Listing()), nameArg, if typeArg.None? || typeArg.value == "" then "section" else typeArg.value).Success?
    {
      if nameArg.None? || nameArg.value == "" {
        return 1;
      }
      var key := if typeArg.None? || typeArg.value == "" then "section" else typeArg.value;
      var r := GenerateComponent(nameArg, key);
      exitCode := if r.Success? then 0 else 1;
    }
  }

  // ---------------------------------------------------------------------------
  // Template text around the substituted name

  const SectionPreamble: string := @"'use client'

import { useRef } from 'react'
import gsap from 'gsap'
import { useGSAP } from '@gsap/react'
import { ScrollTrigger } from 'gsap/ScrollTrigger'

gsap.registerPlugin(ScrollTrigger)

"

  const SectionBody: string := @") {
    const containerRef = useRef(null)

    useGSAP(() => {
        // Animations here
        const elements = containerRef.current.querySelectorAll('.animate-item')
        
        gsap.fromTo(elements,
            { y: 50, autoAlpha: 0 },
            {
                y: 0,
                autoAlpha: 1,
                duration: 1.2,
                stagger: 0.1,
                ease: ""power3.out"",
                scrollTrigger: {
                    trigger: containerRef.current,
                    start: ""top 85%"",
                    toggleActions: ""play none none reverse""
                }
            }
        )
    }, { scope: containerRef })

    return (
        <section 
            ref={containerRef}
            className=""py-24 bg-background""
        >
            <div className=""container mx-auto px-6"">
                <h2 className=""animate-item text-5xl font-display font-bold uppercase mb-8"">
                    "

  const SectionEnd: string := @"
                </h2>
                <p className=""animate-item text-muted text-lg max-w-2xl"">
                    Description here
                </p>
            </div>
        </section>
    )
}
"

  const CardPreamble: string := @"'use client'

import { useRef } from 'react'
import Image from 'next/image'
import gsap from 'gsap'

"

  const CardBody: string := @"{ title, description, image }) {
    const cardRef = useRef(null)

    const handleMouseEnter = () => {
        gsap.to(cardRef.current, {
            scale: 1.05,
            duration: 0.3,
            ease: ""power2.out""
        })
    }

    const handleMouseLeave = () => {
        gsap.to(cardRef.current, {
            scale: 1,
            duration: 0.3,
            ease: ""power2.out""
        })
    }

    return (
        <div
            ref={cardRef}
            onMouseEnter={handleMouseEnter}
            onMouseLeave={handleMouseLeave}
            className=""relative bg-white/5 backdrop-blur-md border border-white/10 rounded-2xl p-6 cursor-pointer""
        >
            {image && (
                <div className=""relative w-full h-48 mb-4 overflow-hidden rounded-lg"">
                    <Image
                        src={image}
                        alt={title}
                        fill
                        className=""object-cover""
                    />
                </div>
            )}
            <h3 className=""text-2xl font-display font-bold uppercase mb-2"">
                {title}
            </h3>
            <p className=""text-muted"">
                {description}
            </p>
        </div>
    )
}
"

  const InteractivePreamble: string := @"'use client'

import { useRef } from 'react'
import gsap from 'gsap'
import { useGSAP } from '@gsap/react'

"

  const InteractiveBody: string := @"{ children, className = """" }) {
    const elementRef = useRef(null)

    useGSAP(() => {
        const xTo = gsap.quickTo(elementRef.current, ""x"", { 
            duration: 1, 
            ease: ""elastic.out(1, 0.4)"" 
        })
        const yTo = gsap.quickTo(elementRef.current, ""y"", { 
            duration: 1, 
            ease: ""elastic.out(1, 0.4)"" 
        })

        const handleMouseMove = (e) => {
            const { clientX, clientY } = e
            const { height, width, left, top } = elementRef.current.getBoundingClientRect()
            const x = clientX - (left + width / 2)
            const y = clientY - (top + height / 2)

            xTo(x * 0.35)
            yTo(y * 0.35)
        }

        const handleMouseLeave = () => {
            xTo(0)
            yTo(0)
        }

        elementRef.current?.addEventListener(""mousemove"", handleMouseMove)
        elementRef.current?.addEventListener(""mouseleave"", handleMouseLeave)

        return () => {
            if (elementRef.current) {
                elementRef.current.removeEventListener(""mousemove"", handleMouseMove)
                elementRef.current.removeEventListener(""mouseleave"", handleMouseLeave)
            }
        }
    })

    return (
        <div ref={elementRef} className={`relative inline-block ${className}`}>
            {children}
        </div>
    )
}
"
}
